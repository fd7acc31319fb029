/**
 * The airdrop onion builder: recipients and amounts are wrapped into a hash
 * chain of layers ("the onion"), its outer shell is what the on-chain contract
 * starts from, and the layers are later peeled off in fixed-size batches.
 *
 * `keccak256(abi.encode(address, uint256, bytes32))` is the parameter `h`, an
 * arbitrary function of (recipient, amount, shell); amounts are naturals.
 */
module Onion {
  import opened Wrappers

  datatype LayerInput = LayerInput(recipient: string, amount: nat)

  datatype Layer = Layer(recipient: string, amount: nat, shell: string)

  /** The layer hash `keccak256(abi.encode(recipient, amount, shell))`. */
  type LayerHash = (string, nat, string) -> string

  /** `ethers.constants.HashZero` */
  const HashZero: string := "0x0000000000000000000000000000000000000000000000000000000000000000"

  /** The shell after wrapping `inputs` in order: the hash chain started from `HashZero`. */
  function ShellOf(h: LayerHash, inputs: seq<LayerInput>): (shell: string)
    decreases |inputs|
  {
    if inputs == [] then HashZero
    else
      var k := |inputs| - 1;
      h(inputs[k].recipient, inputs[k].amount, ShellOf(h, inputs[..k]))
  }

  /** The layers in the order they are pushed: each carries the shell it was wrapped around. */
  function Pushed(h: LayerHash, inputs: seq<LayerInput>): (r: seq<Layer>)
    ensures |r| == |inputs|
    decreases |inputs|
  {
    if inputs == [] then []
    else
      var k := |inputs| - 1;
      Pushed(h, inputs[..k]) + [Layer(inputs[k].recipient, inputs[k].amount, ShellOf(h, inputs[..k]))]
  }

  /** `Array.prototype.reverse`, as a value. */
  function Reversed<T>(s: seq<T>): (r: seq<T>)
    ensures |r| == |s|
  {
    if s == [] then [] else [s[|s| - 1]] + Reversed(s[..|s| - 1])
  }

  lemma {:induction false} ReversedIndex<T>(s: seq<T>, j: nat)
    requires j < |s|
    ensures Reversed(s)[j] == s[|s| - 1 - j]
  {
    if j > 0 {
      ReversedIndex(s[..|s| - 1], j - 1);
    }
  }

  /** The k-th pushed layer is input k wrapped around the shell of the inputs before it. */
  lemma {:induction false} PushedAt(h: LayerHash, inputs: seq<LayerInput>, k: nat)
    requires k < |inputs|
    ensures Pushed(h, inputs)[k] == Layer(inputs[k].recipient, inputs[k].amount, ShellOf(h, inputs[..k]))
  {
    var n := |inputs| - 1;
    if k < n {
      PushedAt(h, inputs[..n], k);
      assert inputs[..n][..k] == inputs[..k];
    }
  }

  /** `onionize`: push a layer per input while advancing the shell, then reverse the layers. */
  method Onionize(h: LayerHash, inputs: seq<LayerInput>) returns (onion: seq<Layer>, shell: string)
    ensures onion == Reversed(Pushed(h, inputs))
    ensures shell == ShellOf(h, inputs)
  {
    shell := HashZero;
    var pushed: seq<Layer> := [];
    for i := 0 to |inputs|
      invariant pushed == Pushed(h, inputs[..i])
      invariant shell == ShellOf(h, inputs[..i])
    {
      assert inputs[..i + 1][..i] == inputs[..i];
      pushed := pushed + [Layer(inputs[i].recipient, inputs[i].amount, shell)];
      shell := h(inputs[i].recipient, inputs[i].amount, shell);
    }
    assert inputs[..|inputs|] == inputs;
    onion := Reversed(pushed);
  }

  /**
   * The onion has one layer per input, outermost first: layer j holds input
   * n-1-j, the first input's layer (the innermost) carries `HashZero`, and each
   * layer carries the shell of the input wrapped just before it.
   */
  lemma OnionLayers(h: LayerHash, inputs: seq<LayerInput>, j: nat)
    requires j < |inputs|
    ensures var onion := Reversed(Pushed(h, inputs));
      var k := |inputs| - 1 - j;
      && |onion| == |inputs|
      && onion[j].recipient == inputs[k].recipient
      && onion[j].amount == inputs[k].amount
      && (k == 0 ==> onion[j].shell == HashZero)
      && (k > 0 ==> onion[j].shell == h(inputs[k - 1].recipient, inputs[k - 1].amount, ShellOf(h, inputs[..k - 1])))
  {
    var k := |inputs| - 1 - j;
    ReversedIndex(Pushed(h, inputs), j);
    PushedAt(h, inputs, k);
    if k > 0 {
      assert inputs[..k][..k - 1] == inputs[..k - 1];
    }
  }

  /**
   * Peeling checks out: hashing any layer gives the shell of the layer outside
   * it, and hashing the outermost layer gives the onion's shell.
   */
  lemma PeelChain(h: LayerHash, inputs: seq<LayerInput>, j: nat)
    requires j < |inputs|
    ensures var onion := Reversed(Pushed(h, inputs));
      var outer := if j == 0 then ShellOf(h, inputs) else onion[j - 1].shell;
      h(onion[j].recipient, onion[j].amount, onion[j].shell) == outer
  {
    var pushed := Pushed(h, inputs);
    var k := |inputs| - 1 - j;
    ReversedIndex(pushed, j);
    PushedAt(h, inputs, k);
    ShellStep(h, inputs, k);
    var onion := Reversed(pushed);
    assert onion[j] == Layer(inputs[k].recipient, inputs[k].amount, ShellOf(h, inputs[..k]));
    if j > 0 {
      ReversedIndex(pushed, j - 1);
      PushedAt(h, inputs, k + 1);
      assert onion[j - 1].shell == ShellOf(h, inputs[..k + 1]);
    } else {
      assert inputs[..k + 1] == inputs;
    }
  }

  /** Wrapping one more input hashes it around the shell so far. */
  lemma ShellStep(h: LayerHash, inputs: seq<LayerInput>, k: nat)
    requires k < |inputs|
    ensures ShellOf(h, inputs[..k + 1]) == h(inputs[k].recipient, inputs[k].amount, ShellOf(h, inputs[..k]))
  {
    assert inputs[..k + 1][..k] == inputs[..k];
  }

  /** With no inputs there are no layers and the shell is `HashZero`. */
  lemma EmptyOnion(h: LayerHash)
    ensures Reversed(Pushed(h, [])) == [] && ShellOf(h, []) == HashZero
  {
  }

  // ---------------------------------------------------------------------------
  // Chunking

  /** The slices `chunk` pushes: `size` elements at a time, the last one possibly shorter. */
  function Chunks<T>(arr: seq<T>, size: nat): (chunks: seq<seq<T>>)
    requires size > 0
    decreases |arr|
  {
    if arr == [] then []
    else if |arr| <= size then [arr]
    else [arr[..size]] + Chunks(arr[size..], size)
  }

  function Flatten<T>(chunks: seq<seq<T>>): (flat: seq<T>)
  {
    if chunks == [] then [] else chunks[0] + Flatten(chunks[1..])
  }

  /**
   * The chunks put back together give the array; each chunk is non-empty and at
   * most `size` long, and every chunk but the last is exactly `size` long.
   */
  lemma {:induction false} ChunksPartition<T>(arr: seq<T>, size: nat)
    requires size > 0
    ensures var cs := Chunks(arr, size);
      && Flatten(cs) == arr
      && (forall i :: 0 <= i < |cs| ==> 0 < |cs[i]| <= size)
      && (forall i :: 0 <= i < |cs| - 1 ==> |cs[i]| == size)
  {
    if arr != [] && |arr| > size {
      ChunksPartition(arr[size..], size);
      var cs := Chunks(arr, size);
      assert cs[1..] == Chunks(arr[size..], size);
      assert arr[..size] + arr[size..] == arr;
    }
  }

  /** What is left to chunk once the loop counter has reached `i`. */
  function Rest<T>(arr: seq<T>, i: nat): (rest: seq<T>)
  {
    if i < |arr| then arr[i..] else []
  }

  /** One turn of `chunk`'s loop: the slice at `i`, clamped to the end, then the rest from `i + size`. */
  lemma ChunksStep<T>(arr: seq<T>, i: nat, size: nat)
    requires size > 0 && i < |arr|
    ensures var end := if i + size < |arr| then i + size else |arr|;
      Chunks(Rest(arr, i), size) == [arr[i..end]] + Chunks(Rest(arr, i + size), size)
  {
    var rest := arr[i..];
    if i + size < |arr| {
      assert rest[..size] == arr[i..i + size];
      assert rest[size..] == arr[i + size..];
    } else {
      assert rest == arr[i..|arr|];
    }
  }

  /** `chunk(arr, size)`; a `size` of 0 would never finish. */
  method Chunk<T>(arr: seq<T>, size: nat) returns (chunks: seq<seq<T>>)
    requires size > 0
    ensures chunks == Chunks(arr, size)
  {
    chunks := [];
    var i := 0;
    assert Rest(arr, 0) == arr;
    while i < |arr|
      invariant chunks + Chunks(Rest(arr, i), size) == Chunks(arr, size)
      decreases |arr| - i
    {
      var end := if i + size < |arr| then i + size else |arr|;
      ChunksStep(arr, i, size);
      chunks := chunks + [arr[i..end]];
      i := i + size;
    }
    assert chunks + [] == chunks;
  }

  // ---------------------------------------------------------------------------
  // Loading the inputs

  /** `String.prototype.split` with a one-character separator. */
  function Split(s: string, sep: char): (r: seq<string>)
    ensures |r| >= 1
    ensures forall piece :: piece in r ==> sep !in piece
    ensures r[0] <= s && (|r[0]| < |s| ==> s[|r[0]|] == sep)
  {
    if s == [] then [""]
    else
      var rest := Split(s[1..], sep);
      if s[0] == sep then [""] + rest else [[s[0]] + rest[0]] + rest[1..]
  }

  /** `Array.prototype.join`, the inverse of `Split`. */
  function Join(parts: seq<string>, sep: char): (line: string)
    requires |parts| >= 1
  {
    if |parts| == 1 then parts[0] else parts[0] + [sep] + Join(parts[1..], sep)
  }

  lemma {:induction false} JoinSplit(s: string, sep: char)
    ensures Join(Split(s, sep), sep) == s
  {
    if s != [] {
      var rest := Split(s[1..], sep);
      JoinSplit(s[1..], sep);
      if s[0] == sep {
        assert Split(s, sep)[1..] == rest;
      } else {
        var r := Split(s, sep);
        if |rest| == 1 {
          assert r == [[s[0]] + rest[0]];
        } else {
          assert r[1..] == rest[1..];
        }
      }
    }
  }

  datatype LoadError = UnparsableAmount(line: string)

  /**
   * `parseLine`: the recipient is the first comma-separated field and the
   * amount is the third, read by `parseUnits`, which may reject its text; a line
   * with fewer than three fields has no amount text at all.
   */
  function ParseLine(line: string, parseUnits: string -> Option<nat>): (r: Result<LayerInput, LoadError>)
    ensures r.Success? <==> |Split(line, ',')| >= 3 && parseUnits(Split(line, ',')[2]).Some?
    ensures r.Success? ==>
      && r.value.recipient <= line
      && ',' !in r.value.recipient
      && (|r.value.recipient| < |line| ==> line[|r.value.recipient|] == ',')
      && r.value.amount == parseUnits(Split(line, ',')[2]).value
    ensures r.Failure? ==> r.error == UnparsableAmount(line)
  {
    var items := Split(line, ',');
    if |items| < 3 then Failure(UnparsableAmount(line))
    else
      match parseUnits(items[2])
      case None => Failure(UnparsableAmount(line))
      case Some(amount) => Success(LayerInput(items[0], amount))
  }

  /** Parsing every line in order; the first line that fails stops it. */
  function ParseAll(lines: seq<string>, parseUnits: string -> Option<nat>): (r: Result<seq<LayerInput>, LoadError>)
    ensures r.Success? ==> |r.value| == |lines|
    decreases |lines|
  {
    if lines == [] then Success([])
    else
      var k := |lines| - 1;
      match ParseAll(lines[..k], parseUnits)
      case Failure(e) => Failure(e)
      case Success(xs) =>
        match ParseLine(lines[k], parseUnits)
        case Failure(e) => Failure(e)
        case Success(x) => Success(xs + [x])
  }

  /** Once some line fails to parse, lines after it do not change the error. */
  lemma {:induction false} ParseFailureStays(p: seq<string>, q: seq<string>, parseUnits: string -> Option<nat>)
    requires ParseAll(p, parseUnits).Failure?
    ensures ParseAll(p + q, parseUnits) == ParseAll(p, parseUnits)
    decreases |q|
  {
    if q == [] {
      assert p + q == p;
    } else {
      var k := |q| - 1;
      ParseFailureStays(p, q[..k], parseUnits);
      assert (p + q)[..|p + q| - 1] == p + q[..k];
    }
  }

  /** The inputs whose recipient is not sanctioned, in order. */
  function Unsanctioned(xs: seq<LayerInput>, sanctioned: seq<string>): (kept: seq<LayerInput>)
    decreases |xs|
  {
    if xs == [] then []
    else
      var k := |xs| - 1;
      Unsanctioned(xs[..k], sanctioned) + (if xs[k].recipient in sanctioned then [] else [xs[k]])
  }

  /** An input is kept exactly when it was loaded and its recipient is not sanctioned. */
  lemma {:induction false} UnsanctionedMembers(xs: seq<LayerInput>, sanctioned: seq<string>)
    ensures forall x :: x in Unsanctioned(xs, sanctioned) <==> x in xs && x.recipient !in sanctioned
    decreases |xs|
  {
    if xs != [] {
      var k := |xs| - 1;
      UnsanctionedMembers(xs[..k], sanctioned);
      assert xs == xs[..k] + [xs[k]];
    }
  }

  /** The filter keeps order: filtering a concatenation concatenates the filtered parts. */
  lemma {:induction false} UnsanctionedAppend(xs: seq<LayerInput>, ys: seq<LayerInput>, sanctioned: seq<string>)
    ensures Unsanctioned(xs + ys, sanctioned) == Unsanctioned(xs, sanctioned) + Unsanctioned(ys, sanctioned)
    decreases |ys|
  {
    if ys == [] {
      assert xs + ys == xs;
    } else {
      var k := |ys| - 1;
      UnsanctionedAppend(xs, ys[..k], sanctioned);
      assert (xs + ys)[..|xs + ys| - 1] == xs + ys[..k];
    }
  }

  /** The lines after the header: `.slice(1)`. */
  function Body(lines: seq<string>): (body: seq<string>)
  {
    if lines == [] then [] else lines[1..]
  }

  /**
   * What `load` answers for the file's lines: the parse error of the first bad
   * line after the header, or else the parsed lines without the sanctioned
   * recipients.
   */
  function Loaded(lines: seq<string>, sanctioned: seq<string>, parseUnits: string -> Option<nat>): (r: Result<seq<LayerInput>, LoadError>)
  {
    match ParseAll(Body(lines), parseUnits)
    case Failure(e) => Failure(e)
    case Success(xs) => Success(Unsanctioned(xs, sanctioned))
  }

  /** `load`, after the file has been read, trimmed and split into lines. */
  method Load(lines: seq<string>, sanctioned: seq<string>, parseUnits: string -> Option<nat>)
    returns (r: Result<seq<LayerInput>, LoadError>)
    ensures r == Loaded(lines, sanctioned, parseUnits)
  {
    var body := Body(lines);
    var outputs: seq<LayerInput> := [];
    ghost var parsed: seq<LayerInput> := [];
    for i := 0 to |body|
      invariant ParseAll(body[..i], parseUnits) == Success(parsed)
      invariant outputs == Unsanctioned(parsed, sanctioned)
    {
      assert body[..i + 1][..i] == body[..i];
      var output := ParseLine(body[i], parseUnits);
      if output.Failure? {
        ParseFailureStays(body[..i + 1], body[i + 1..], parseUnits);
        assert body[..i + 1] + body[i + 1..] == body;
        return Failure(output.error);
      }
      if output.value.recipient !in sanctioned {
        outputs := outputs + [output.value];
      }
      assert (parsed + [output.value])[..|parsed|] == parsed;
      parsed := parsed + [output.value];
    }
    assert body[..|body|] == body;
    r := Success(outputs);
  }

  // ---------------------------------------------------------------------------
  // Approval total

  /** The sum of the amounts. */
  function Total(inputs: seq<LayerInput>): (total: nat)
    decreases |inputs|
  {
    if inputs == [] then 0 else Total(inputs[..|inputs| - 1]) + inputs[|inputs| - 1].amount
  }

  /** `approval`: the amounts added up from 0. */
  method Approval(inputs: seq<LayerInput>) returns (total: nat)
    ensures total == Total(inputs)
  {
    total := 0;
    for i := 0 to |inputs|
      invariant total == Total(inputs[..i])
    {
      assert inputs[..i + 1][..i] == inputs[..i];
      total := total + inputs[i].amount;
    }
    assert inputs[..|inputs|] == inputs;
  }

  lemma {:induction false} TotalAppend(xs: seq<LayerInput>, ys: seq<LayerInput>)
    ensures Total(xs + ys) == Total(xs) + Total(ys)
    decreases |ys|
  {
    if ys == [] {
      assert xs + ys == xs;
    } else {
      var k := |ys| - 1;
      TotalAppend(xs, ys[..k]);
      assert (xs + ys)[..|xs + ys| - 1] == xs + ys[..k];
    }
  }

  /** Removing sanctioned recipients never raises the approval total. */
  lemma {:induction false} UnsanctionedTotal(xs: seq<LayerInput>, sanctioned: seq<string>)
    ensures Total(Unsanctioned(xs, sanctioned)) <= Total(xs)
    decreases |xs|
  {
    if xs != [] {
      var k := |xs| - 1;
      UnsanctionedTotal(xs[..k], sanctioned);
      TotalAppend(Unsanctioned(xs[..k], sanctioned), if xs[k].recipient in sanctioned then [] else [xs[k]]);
    }
  }

  // ---------------------------------------------------------------------------
  // Where peeling resumes

  /** `onion.findIndex(l => l.shell === current)`: the first layer with that shell, or -1. */
  function FindShell(onion: seq<Layer>, current: string): (r: int)
    ensures -1 <= r < |onion|
    ensures r >= 0 ==> onion[r].shell == current && forall j :: 0 <= j < r ==> onion[j].shell != current
    ensures r == -1 ==> forall j :: 0 <= j < |onion| ==> onion[j].shell != current
  {
    if onion == [] then -1
    else if onion[0].shell == current then 0
    else
      var k := FindShell(onion[1..], current);
      if k == -1 then -1 else k + 1
  }

  /** The peel start: one past the first layer whose shell is the contract's current shell, else 0. */
  function PeelStart(onion: seq<Layer>, current: string): (start: nat)
    ensures start <= |onion|
    ensures start > 0 ==> onion[start - 1].shell == current
    ensures forall j :: 0 <= j < start - 1 ==> onion[j].shell != current
    ensures start == 0 ==> forall j :: 0 <= j < |onion| ==> onion[j].shell != current
  {
    FindShell(onion, current) + 1
  }

  /** The batches `peel` submits: the layers from the start index on, 350 at a time. */
  function PeelBatches(onion: seq<Layer>, current: string): (batches: seq<seq<Layer>>)
    ensures Flatten(batches) == onion[PeelStart(onion, current)..]
    ensures forall i :: 0 <= i < |batches| ==> 0 < |batches[i]| <= 350
    ensures forall i :: 0 <= i < |batches| - 1 ==> |batches[i]| == 350
  {
    ChunksPartition(onion[PeelStart(onion, current)..], 350);
    Chunks(onion[PeelStart(onion, current)..], 350)
  }

  /**
   * When the contract's shell is that of layer j and no two layers share a
   * shell, peeling resumes right after layer j, and the batches submitted are
   * exactly the layers after it.
   */
  lemma PeelResumesAfter(onion: seq<Layer>, j: nat)
    requires j < |onion|
    requires forall a, b :: 0 <= a < b < |onion| ==> onion[a].shell != onion[b].shell
    ensures PeelStart(onion, onion[j].shell) == j + 1
    ensures Flatten(PeelBatches(onion, onion[j].shell)) == onion[j + 1..]
  {
  }

  /** A contract shell that matches no layer means nothing has been peeled: every layer is submitted. */
  lemma PeelFromScratch(onion: seq<Layer>, current: string)
    requires forall j :: 0 <= j < |onion| ==> onion[j].shell != current
    ensures PeelStart(onion, current) == 0
    ensures Flatten(PeelBatches(onion, current)) == onion
  {
    assert onion[0..] == onion;
  }
}

/** The input-parsing stages of the bootstrap: targets from the `-T` list file
    and from piped standard input are appended, in that order, after the
    targets the `-t` flags supplied. */
module Inputs {
  import opened Text
  import opened Config

  /** What the file helpers report, as a value: a path is a key exactly when
      the file exists, and its value is what reading that file contributes. */
  type FileSystem = map<string, seq<string>>

  /** Standard input as the bootstrap sees it. `Terminal` is a character
      device, such as an interactive terminal, and is never read. `Piped` is
      anything else (a pipe, a redirected file): `lines` is every token the
      line scanner yields, and the first `cleanCount` of them are yielded
      while the scanner still reports no read error. A read error, once
      recorded, stays, so every later token is yielded with it set;
      `cleanCount >= |lines|` means the stream ended without one. The
      sequence is finite: a stream that never ends is not represented. */
  datatype Stdin = Terminal | Piped(lines: seq<string>, cleanCount: nat)

  /** The targets the list file contributes: nothing unless a path was given
      and a file exists there. */
  function FileTargets(inputList: string, fs: FileSystem): seq<string> {
    if inputList != "" && inputList in fs then fs[inputList] else []
  }

  /** The options differ at most in their target sequence. */
  predicate SameButInputs(a: Options, b: Options) {
    b == a.(scan := a.scan.(inputs := b.scan.inputs))
  }

  lemma SameButInputsTrans(a: Options, b: Options, c: Options)
    requires SameButInputs(a, b) && SameButInputs(b, c)
    ensures SameButInputs(a, c)
  {
  }

  /** The list-file stage. */
  function AppendListFile(o: Options, fs: FileSystem): (r: Options)
    ensures SameButInputs(o, r)
    ensures o.scan.inputs <= r.scan.inputs
    ensures o.scan.inputList == "" || o.scan.inputList !in fs ==> r == o
    ensures o.scan.inputList != "" && o.scan.inputList in fs ==>
              r.scan.inputs[|o.scan.inputs|..] == fs[o.scan.inputList]
  {
    o.(scan := o.scan.(inputs := o.scan.inputs + FileTargets(o.scan.inputList, fs)))
  }

  /** Every line trimmed, position by position. */
  function TrimLines(lines: seq<string>): (ts: seq<string>)
    ensures |ts| == |lines|
    ensures forall i :: 0 <= i < |ts| ==> ts[i] == TrimSpace(lines[i])
  {
    seq(|lines|, i requires 0 <= i < |lines| => TrimSpace(lines[i]))
  }

  /** The non-empty strings of `ts`, in order. */
  function DropBlank(ts: seq<string>): (r: seq<string>)
    ensures |r| <= |ts|
    ensures forall i :: 0 <= i < |r| ==> r[i] != ""
  {
    if |ts| == 0 then []
    else
      var n := |ts| - 1;
      DropBlank(ts[..n]) + (if ts[n] != "" then [ts[n]] else [])
  }

  /** Strictly increasing. */
  predicate Ascending(idx: seq<nat>) {
    forall i, j :: 0 <= i < j < |idx| ==> idx[i] < idx[j]
  }

  lemma AscendingSnoc(idx: seq<nat>, n: nat)
    requires Ascending(idx)
    requires forall i :: 0 <= i < |idx| ==> idx[i] < n
    ensures Ascending(idx + [n])
  {
  }

  /** The positions of the non-empty strings of `ts`, ascending. */
  function NonBlankIndices(ts: seq<string>): (idx: seq<nat>)
    ensures forall i :: 0 <= i < |idx| ==> idx[i] < |ts| && ts[idx[i]] != ""
    ensures Ascending(idx)
    ensures forall k :: 0 <= k < |ts| && ts[k] != "" ==> k in idx
  {
    if |ts| == 0 then []
    else
      var n := |ts| - 1;
      var front := NonBlankIndices(ts[..n]);
      assert forall k :: 0 <= k < n ==> ts[..n][k] == ts[k];
      if ts[n] != "" then
        AscendingSnoc(front, n);
        front + [n]
      else
        front
  }

  /** DropBlank picks, position by position, the strings NonBlankIndices names. */
  predicate Selects(ts: seq<string>, r: seq<string>, idx: seq<nat>)
    requires forall i :: 0 <= i < |idx| ==> idx[i] < |ts|
  {
    |r| == |idx| && forall i :: 0 <= i < |r| ==> r[i] == ts[idx[i]]
  }

  /** A selection from a prefix is a selection from the whole sequence. */
  lemma SelectsExtend(ts: seq<string>, n: nat, r: seq<string>, idx: seq<nat>)
    requires n <= |ts|
    requires forall i :: 0 <= i < |idx| ==> idx[i] < n
    requires Selects(ts[..n], r, idx)
    ensures Selects(ts, r, idx)
  {
    forall i | 0 <= i < |r|
      ensures r[i] == ts[idx[i]]
    {
      assert ts[..n][idx[i]] == ts[idx[i]];
    }
  }

  /** Selecting one more position appends the string found there. */
  lemma SelectsSnoc(ts: seq<string>, r: seq<string>, idx: seq<nat>, n: nat)
    requires n < |ts|
    requires forall i :: 0 <= i < |idx| ==> idx[i] < |ts|
    requires Selects(ts, r, idx)
    ensures Selects(ts, r + [ts[n]], idx + [n])
  {
  }

  /** DropBlank keeps exactly the non-empty strings, in order: its i-th
      result is the string at the i-th non-empty position. */
  lemma {:induction false} DropBlankSelects(ts: seq<string>)
    ensures |DropBlank(ts)| == |NonBlankIndices(ts)|
    ensures forall i :: 0 <= i < |DropBlank(ts)| ==> DropBlank(ts)[i] == ts[NonBlankIndices(ts)[i]]
    decreases |ts|
  {
    if |ts| > 0 {
      var n := |ts| - 1;
      var front := ts[..n];
      DropBlankSelects(front);
      var r, idx := DropBlank(front), NonBlankIndices(front);
      assert Selects(front, r, idx);
      SelectsExtend(ts, n, r, idx);
      if ts[n] != "" {
        SelectsSnoc(ts, r, idx, n);
        assert DropBlank(ts) == r + [ts[n]];
        assert NonBlankIndices(ts) == idx + [n];
        assert Selects(ts, DropBlank(ts), NonBlankIndices(ts));
      } else {
        assert DropBlank(ts) == r;
        assert NonBlankIndices(ts) == idx;
      }
    }
  }

  /** Filtering two chunks one after the other is filtering their concatenation. */
  lemma {:induction false} DropBlankAppend(a: seq<string>, b: seq<string>)
    ensures DropBlank(a + b) == DropBlank(a) + DropBlank(b)
    decreases |b|
  {
    if |b| == 0 {
      assert a + b == a;
    } else {
      var n := |b| - 1;
      assert (a + b)[..|a + b| - 1] == a + b[..n];
      DropBlankAppend(a, b[..n]);
    }
  }

  /** Filtering a sequence with no empty string in it changes nothing. */
  lemma {:induction false} DropBlankOfNonBlank(ts: seq<string>)
    requires forall i :: 0 <= i < |ts| ==> ts[i] != ""
    ensures DropBlank(ts) == ts
    decreases |ts|
  {
    if |ts| > 0 {
      var n := |ts| - 1;
      DropBlankOfNonBlank(ts[..n]);
      assert ts[..n] + [ts[n]] == ts;
    }
  }

  /** The targets a sequence of scanned lines yields: each line trimmed, the
      blank ones dropped, the rest kept in order. */
  function NormalizeLines(lines: seq<string>): (ts: seq<string>)
    ensures |ts| <= |lines|
    ensures forall i :: 0 <= i < |ts| ==> ts[i] != "" && Trimmed(ts[i])
  {
    DropBlankSelects(TrimLines(lines));
    DropBlank(TrimLines(lines))
  }

  /** The targets are exactly the trimmed non-blank lines, in input order:
      the i-th target is the trimmed line at the i-th non-blank position. */
  lemma NormalizeLinesSelects(lines: seq<string>)
    ensures var idx := NonBlankIndices(TrimLines(lines));
            && |NormalizeLines(lines)| == |idx|
            && forall i :: 0 <= i < |idx| ==> NormalizeLines(lines)[i] == TrimSpace(lines[idx[i]])
  {
    DropBlankSelects(TrimLines(lines));
  }

  /** Scanning one more line appends its trimmed form, unless it is blank. */
  lemma NormalizeLinesSnoc(lines: seq<string>, n: nat)
    requires n < |lines|
    ensures var t := TrimSpace(lines[n]);
            NormalizeLines(lines[..n + 1]) == NormalizeLines(lines[..n]) + (if t != "" then [t] else [])
  {
    var ts := TrimLines(lines[..n + 1]);
    assert ts[..n] == TrimLines(lines[..n]);
  }

  /** Scanning two chunks of input one after the other yields the targets of
      the first chunk followed by those of the second. */
  lemma NormalizeLinesAppend(a: seq<string>, b: seq<string>)
    ensures NormalizeLines(a + b) == NormalizeLines(a) + NormalizeLines(b)
  {
    var ta, tb, tab := TrimLines(a), TrimLines(b), TrimLines(a + b);
    forall i | 0 <= i < |tab|
      ensures tab[i] == (ta + tb)[i]
    {
      if i < |a| {
        assert (a + b)[i] == a[i];
      } else {
        assert (a + b)[i] == b[i - |a|];
      }
    }
    assert tab == ta + tb;
    DropBlankAppend(TrimLines(a), TrimLines(b));
  }

  /** Feeding the targets back through the scanner changes nothing. */
  lemma NormalizeLinesIdempotent(lines: seq<string>)
    ensures NormalizeLines(NormalizeLines(lines)) == NormalizeLines(lines)
  {
    var ts := NormalizeLines(lines);
    forall i | 0 <= i < |ts|
      ensures TrimSpace(ts[i]) == ts[i]
    {
      assert [] + ts[i] + [] == ts[i];
      TrimSpaceOfPadded([], ts[i], []);
    }
    assert TrimLines(ts) == ts;
    DropBlankOfNonBlank(ts);
  }

  /** The tokens the bootstrap considers: those yielded before any read error. */
  function Accepted(stdin: Stdin): seq<string> {
    match stdin
    case Terminal => []
    case Piped(lines, cleanCount) => if cleanCount < |lines| then lines[..cleanCount] else lines
  }

  /** The targets standard input contributes. */
  function StdinTargets(stdin: Stdin): seq<string> {
    NormalizeLines(Accepted(stdin))
  }

  /** A read error only ever loses targets from the end: what is appended is
      a prefix of what the whole token stream would give, and all of it when
      no error occurred. */
  lemma ReadErrorKeepsPrefix(lines: seq<string>, cleanCount: nat)
    ensures StdinTargets(Piped(lines, cleanCount)) <= NormalizeLines(lines)
    ensures cleanCount >= |lines| ==> StdinTargets(Piped(lines, cleanCount)) == NormalizeLines(lines)
  {
    if cleanCount < |lines| {
      assert lines == lines[..cleanCount] + lines[cleanCount..];
      NormalizeLinesAppend(lines[..cleanCount], lines[cleanCount..]);
    }
  }

  /** The standard-input stage. */
  function AppendStdin(o: Options, stdin: Stdin): (r: Options)
    ensures SameButInputs(o, r)
    ensures o.scan.inputs <= r.scan.inputs
    ensures stdin.Terminal? ==> r == o
    ensures stdin.Piped? ==> r.scan.inputs[|o.scan.inputs|..] == NormalizeLines(Accepted(stdin))
    ensures forall i :: |o.scan.inputs| <= i < |r.scan.inputs| ==>
              r.scan.inputs[i] != "" && Trimmed(r.scan.inputs[i])
  {
    o.(scan := o.scan.(inputs := o.scan.inputs + StdinTargets(stdin)))
  }

  /** The scanning loop itself: one pass over every token the scanner
      yields, appending each trimmed non-blank one that arrives while no read
      error is reported. Returns the extended targets and how many tokens
      were consumed. */
  method ReadStdin(inputs: seq<string>, stdin: Stdin) returns (out: seq<string>, consumed: nat)
    ensures stdin.Terminal? ==> consumed == 0 && out == inputs
    ensures stdin.Piped? ==> consumed == |stdin.lines|
    ensures out == inputs + StdinTargets(stdin)
  {
    if stdin.Terminal? {
      return inputs, 0;
    }
    var taken;
    out, consumed, taken := ScanTokens(inputs, stdin.lines, stdin.cleanCount);
    assert Accepted(stdin) == stdin.lines[..taken];
  }

  /** The body of the scanning loop over the tokens `lines`, of which the
      first `clean` arrive before any read error. Also returns how many
      tokens were taken into account. */
  method ScanTokens(inputs: seq<string>, lines: seq<string>, clean: nat) returns (out: seq<string>, consumed: nat, taken: nat)
    ensures consumed == |lines|
    ensures taken == if clean < |lines| then clean else |lines|
    ensures out == inputs + NormalizeLines(lines[..taken])
  {
    out, consumed, taken := inputs, 0, 0;
    while consumed < |lines|
      invariant consumed <= |lines|
      invariant taken <= consumed && taken <= clean
      invariant taken == consumed || taken == clean
      invariant out == inputs + NormalizeLines(lines[..taken])
    {
      var target := TrimSpace(lines[consumed]);
      if consumed < clean {
        ScanStep(inputs, out, lines, consumed);
        if target != "" {
          out := out + [target];
        }
        taken := taken + 1;
      }
      consumed := consumed + 1;
    }
  }

  /** One accepted token extends the targets scanned so far by its trimmed
      form, unless that is blank. */
  lemma ScanStep(inputs: seq<string>, out: seq<string>, lines: seq<string>, n: nat)
    requires n < |lines|
    requires out == inputs + NormalizeLines(lines[..n])
    ensures var t := TrimSpace(lines[n]);
            (if t != "" then out + [t] else out) == inputs + NormalizeLines(lines[..n + 1])
  {
    NormalizeLinesSnoc(lines, n);
  }

  /** The example lines, each trimmed. */
  lemma ExampleTrimmed()
    ensures TrimLines(["a", " b ", "", "c"]) == ["a", "b", "", "c"]
  {
    TrimSpaceExamples();
  }

  /** The example's trimmed lines with the blank one dropped. */
  lemma ExampleFiltered()
    ensures DropBlank(["a", "b", "", "c"]) == ["a", "b", "c"]
  {
    var ts: seq<string> := ["a", "b", "", "c"];
    var t3 := ts[..3];
    var t2 := t3[..2];
    var t1 := t2[..1];
    assert t3 == ["a", "b", ""] && t2 == ["a", "b"] && t1 == ["a"];
    assert t1[..0] == [];
    assert DropBlank(t1) == ["a"];
    assert DropBlank(t2) == ["a", "b"];
    assert DropBlank(t3) == ["a", "b"];
  }

  /** Lines "a", " b ", "" and "c" yield the targets "a", "b" and "c". */
  lemma PipedExample()
    ensures NormalizeLines(["a", " b ", "", "c"]) == ["a", "b", "c"]
  {
    ExampleTrimmed();
    ExampleFiltered();
  }
}

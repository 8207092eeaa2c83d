/**
  Host names: parsing a dotted name into its canonical form, and the labels of that form.
*/
module HostName {
  import opened Outcomes
  import opened MachineWords

  const DOT: Byte := 46
  const HYPHEN: Byte := 45
  const UNDERSCORE: Byte := 95

  const MAX_NAME: nat := 253
  const MAX_LABEL: nat := 63

  type Label = seq<Byte>

  datatype Error =
    | NameLength(actual: nat)
    | Capacity(actual: nat)
    | LabelLength(index: nat, actual: nat)
    | LabelHyphen(index: nat, offset: nat)
    | LabelCharacter(index: nat, offset: nat, value: Byte)

  // ----- Dotted text and labels -----

  /** The pieces of `s` between its dots; there is always at least one. */
  function Split(s: seq<Byte>): (labels: seq<Label>)
    ensures |labels| > 0
  {
    if s == [] then [[]]
    else
      var rest := Split(s[1..]);
      if s[0] == DOT then [[]] + rest else [[s[0]] + rest[0]] + rest[1..]
  }

  function Join(labels: seq<Label>): seq<Byte> {
    if labels == [] then [] else if |labels| == 1 then labels[0] else labels[0] + [DOT] + Join(labels[1..])
  }

  /** Labels are joined by dots. */
  lemma JoinMeans(first: Label, rest: seq<Label>)
    ensures Join([]) == [] && Join([first]) == first
    ensures rest != [] ==> Join([first] + rest) == first + ['.' as nat] + Join(rest)
  {
    assert ([first] + rest)[1..] == rest;
  }

  lemma {:induction false} JoinAfterSplit(s: seq<Byte>)
    ensures Join(Split(s)) == s
  {
    if s != [] {
      JoinAfterSplit(s[1..]);
      var rest := Split(s[1..]);
      if s[0] == DOT {
        assert Split(s)[1..] == rest;
        assert s == [DOT] + s[1..];
      } else {
        assert Split(s)[1..] == rest[1..];
        assert s == [s[0]] + s[1..];
      }
    }
  }

  lemma {:induction false} SplitAfterJoin(labels: seq<Label>)
    requires labels != [] && forall l | l in labels :: DOT !in l
    ensures Split(Join(labels)) == labels
  {
    if |labels| == 1 {
      SplitPlain(labels[0], []);
      assert labels[0] + [] == labels[0];
      assert Split([]) == [[]];
    } else {
      SplitAfterJoin(labels[1..]);
      var tail := [DOT] + Join(labels[1..]);
      assert labels[0] + [DOT] + Join(labels[1..]) == labels[0] + tail;
      assert tail[1..] == Join(labels[1..]);
      assert Split(tail) == [[]] + labels[1..];
      SplitPlain(labels[0], tail);
      assert labels[0] + [] == labels[0];
    }
  }

  /** Text without dots only lengthens the first label of what follows. */
  lemma {:induction false} SplitPlain(l: Label, tail: seq<Byte>)
    requires DOT !in l
    ensures Split(l + tail) == [l + Split(tail)[0]] + Split(tail)[1..]
  {
    if l == [] {
      assert l + tail == tail && l + Split(tail)[0] == Split(tail)[0];
      assert Split(tail) == [Split(tail)[0]] + Split(tail)[1..];
    } else {
      var first := Split(tail)[0];
      assert (l + tail)[1..] == l[1..] + tail;
      SplitPlain(l[1..], tail);
      assert [l[0]] + (l[1..] + first) == l + first;
    }
  }

  lemma {:induction false} SplitHasNoDots(s: seq<Byte>)
    ensures forall l | l in Split(s) :: DOT !in l
  {
    if s != [] { SplitHasNoDots(s[1..]); }
  }

  // ----- What a host name is -----

  predicate IsNameByte(b: Byte) {
    48 <= b <= 57 || 65 <= b <= 90 || 97 <= b <= 122 || b == HYPHEN || b == UNDERSCORE
  }

  predicate Fits(l: Label) { 1 <= |l| <= MAX_LABEL }

  predicate IsLabel(l: Label) {
    && Fits(l)
    && l[0] != HYPHEN && l[|l| - 1] != HYPHEN
    && forall i | 0 <= i < |l| :: IsNameByte(l[i])
  }

  predicate AreLabels(labels: seq<Label>) {
    forall i | 0 <= i < |labels| :: IsLabel(labels[i])
  }

  function Lower(b: Byte): Byte {
    if 65 <= b <= 90 then b + 32 else b
  }

  /** Name characters are the letters, the digits, the hyphen and the underscore; only capital letters are lowered. */
  lemma NameByteMeans(b: Byte)
    ensures var c := b as char;
            && (IsNameByte(b) <==> 'a' <= c <= 'z' || 'A' <= c <= 'Z' || '0' <= c <= '9' || c == '-' || c == '_')
            && Lower(b) == if 'A' <= c <= 'Z' then b - 'A' as nat + 'a' as nat else b
  {
  }

  /** A label has one to sixty-three name characters, no hyphen at either end. */
  lemma LabelMeans(l: Label)
    ensures IsLabel(l) <==>
              && 1 <= |l| <= 63 && l[0] as char != '-' && l[|l| - 1] as char != '-'
              && forall i | 0 <= i < |l| ::
                   var c := l[i] as char; 'a' <= c <= 'z' || 'A' <= c <= 'Z' || '0' <= c <= '9' || c == '-' || c == '_'
  {
  }

  function Lowered(s: seq<Byte>): (t: seq<Byte>)
    ensures |t| == |s|
  {
    seq(|s|, i requires 0 <= i < |s| => Lower(s[i]))
  }

  /** The stored form of a name: lower-case labels between dots, at most 253 bytes. */
  predicate IsName(bytes: seq<Byte>) {
    1 <= |bytes| <= MAX_NAME && AreLabels(Split(bytes)) && Lowered(bytes) == bytes
  }

  function Stripped(input: seq<Byte>): seq<Byte> {
    if input != [] && input[|input| - 1] == DOT then input[..|input| - 1] else input
  }

  /** Where label `k` starts in the joined text. */
  function Offset(labels: seq<Label>, k: nat): nat
    requires k < |labels|
  {
    if k == 0 then 0 else Offset(labels, k - 1) + |labels[k - 1]| + 1
  }

  /** What stands in the text at an offset stands in a longer text behind its extension. */
  lemma ShiftedPart(head: seq<Byte>, text: seq<Byte>, at: nat, n: nat)
    requires at + n <= |text|
    ensures (head + text)[|head| + at..|head| + at + n] == text[at..at + n]
  {
  }

  lemma {:induction false} JoinPrefix(labels: seq<Label>, k: nat)
    requires k < |labels|
    ensures Offset(labels, k) + |labels[k]| == |Join(labels[..k + 1])| <= |Join(labels)|
    ensures Join(labels)[Offset(labels, k)..Offset(labels, k) + |labels[k]|] == labels[k]
    decreases |labels|
  {
    if |labels| == 1 {
      assert labels[..1] == labels;
      assert Join(labels) == labels[0] && labels[0][0..|labels[0]|] == labels[0];
    } else if k == 0 {
      assert labels[..1] == [labels[0]];
      var tail := [DOT] + Join(labels[1..]);
      assert Join(labels) == labels[0] + [DOT] + Join(labels[1..]) == labels[0] + tail;
      assert (labels[0] + tail)[0..|labels[0]|] == labels[0];
    } else {
      OffsetShifts(labels, k);
      JoinPrefix(labels[1..], k - 1);
      assert labels[..k + 1][1..] == labels[1..][..k];
      assert Join(labels[..k + 1]) == labels[0] + [DOT] + Join(labels[1..][..k]);
      var head, rest := labels[0] + [DOT], Join(labels[1..]);
      assert Join(labels) == head + rest;
      ShiftedPart(head, rest, Offset(labels[1..], k - 1), |labels[k]|);
    }
  }

  lemma {:induction false} OffsetShifts(labels: seq<Label>, k: nat)
    requires 0 < k < |labels|
    ensures Offset(labels, k) == |labels[0]| + 1 + Offset(labels[1..], k - 1)
  {
    if k > 1 { OffsetShifts(labels, k - 1); }
  }

  /** The first thing wrong with a label of admissible length at `offset`: its ends before its bytes, then the first bad byte. */
  ghost predicate IsFault(e: Error, index: nat, offset: nat, piece: Label)
    requires Fits(piece)
  {
    match e
    case LabelHyphen(i, at) =>
      && i == index
      && if piece[0] == HYPHEN then at == offset else piece[|piece| - 1] == HYPHEN && at == offset + |piece| - 1
    case LabelCharacter(i, at, value) =>
      && i == index && piece[0] != HYPHEN && piece[|piece| - 1] != HYPHEN
      && offset <= at < offset + |piece| && piece[at - offset] == value && !IsNameByte(value)
      && forall k | 0 <= k < at - offset :: IsNameByte(piece[k])
    case _ => false
  }

  /** Label `i` is looked at: the text has an admissible length, and all labels before are labels. */
  ghost predicate Reached(labels: seq<Label>, i: nat) {
    1 <= |Join(labels)| <= MAX_NAME && i < |labels| && AreLabels(labels[..i])
  }

  /** What an error says about the labels: the first bad one, and where and how it is bad first. */
  ghost predicate Explains(e: Error, labels: seq<Label>) {
    match e
    case NameLength(actual) => actual == |Join(labels)| == 0
    case Capacity(actual) => actual == |Join(labels)| > MAX_NAME
    case LabelLength(i, actual) => Reached(labels, i) && actual == |labels[i]| && !Fits(labels[i])
    case LabelHyphen(i, offset) =>
      && Reached(labels, i) && Fits(labels[i]) && IsFault(e, i, Offset(labels, i), labels[i])
      && offset < |Join(labels)| && Join(labels)[offset] == HYPHEN
    case LabelCharacter(i, offset, value) =>
      && Reached(labels, i) && Fits(labels[i]) && IsFault(e, i, Offset(labels, i), labels[i])
      && offset < |Join(labels)| && Join(labels)[offset] == value
  }

  lemma FaultIsNoLabel(e: Error, index: nat, offset: nat, piece: Label)
    requires Fits(piece) && IsFault(e, index, offset, piece)
    ensures !IsLabel(piece)
  {
    if e.LabelCharacter? { assert !IsNameByte(piece[e.offset - offset]); }
  }

  lemma SameFault(a: Error, b: Error, index: nat, offset: nat, piece: Label)
    requires Fits(piece) && IsFault(a, index, offset, piece) && IsFault(b, index, offset, piece)
    ensures a == b
  {
    if a.LabelCharacter? && b.LabelCharacter? {
      FirstBad(piece, a.offset - offset, b.offset - offset);
      FirstBad(piece, b.offset - offset, a.offset - offset);
    }
  }

  lemma FirstBad(piece: Label, i: nat, j: nat)
    requires i < |piece| && j < |piece| && !IsNameByte(piece[i]) && forall k | 0 <= k < j :: IsNameByte(piece[k])
    ensures i >= j
  {
  }

  lemma EarlierIsLabel(labels: seq<Label>, i: nat, k: nat)
    requires i < k <= |labels| && AreLabels(labels[..k])
    ensures IsLabel(labels[i])
  {
    assert labels[..k][i] == labels[i];
  }

  /** The label an error is about is not a label, while all before it are. */
  lemma FaultyLabel(e: Error, labels: seq<Label>)
    requires Explains(e, labels) && !e.NameLength? && !e.Capacity?
    ensures !IsLabel(labels[e.index])
  {
    if !e.LabelLength? { FaultIsNoLabel(e, e.index, Offset(labels, e.index), labels[e.index]); }
  }

  lemma SameIndex(a: Error, b: Error, labels: seq<Label>)
    requires Explains(a, labels) && Explains(b, labels)
    requires !a.NameLength? && !a.Capacity? && !b.NameLength? && !b.Capacity?
    ensures a.index == b.index
  {
    if a.index < b.index { EarlierIsLabel(labels, a.index, b.index); }
    if b.index < a.index { EarlierIsLabel(labels, b.index, a.index); }
    FaultyLabel(a, labels);
    FaultyLabel(b, labels);
  }

  /** No input has two explanations, so the error is the one the checks come upon first. */
  lemma ExplanationIsUnique(a: Error, b: Error, labels: seq<Label>)
    requires Explains(a, labels) && Explains(b, labels)
    ensures a == b
  {
    if !a.NameLength? && !a.Capacity? && !b.NameLength? && !b.Capacity? {
      SameIndex(a, b, labels);
      if Fits(labels[a.index]) { SameFault(a, b, a.index, Offset(labels, a.index), labels[a.index]); }
    }
  }

  // ----- Parsing -----

  /** Checks the characters of one label of admissible length, hyphens at its ends first. */
  method CheckPiece(index: nat, offset: nat, piece: Label) returns (fault: Option<Error>)
    requires Fits(piece)
    ensures fault.None? <==> IsLabel(piece)
    ensures fault.Some? ==> IsFault(fault.value, index, offset, piece)
  {
    if piece[0] == HYPHEN { return Some(LabelHyphen(index, offset)); }
    if piece[|piece| - 1] == HYPHEN { return Some(LabelHyphen(index, offset + |piece| - 1)); }
    for relative := 0 to |piece|
      invariant forall i | 0 <= i < relative :: IsNameByte(piece[i])
    {
      if !IsNameByte(piece[relative]) {
        return Some(LabelCharacter(index, offset + relative, piece[relative]));
      }
    }
    fault := None;
  }

  method CopyLowered(output: array<Byte>, offset: nat, piece: Label)
    requires offset + |piece| <= output.Length
    modifies output
    ensures output[..offset] == old(output[..offset])
    ensures output[offset..offset + |piece|] == Lowered(piece)
  {
    for i := 0 to |piece|
      invariant output[..offset] == old(output[..offset])
      invariant output[offset..offset + i] == Lowered(piece)[..i]
    {
      output[offset + i] := Lower(piece[i]);
    }
  }

  lemma LoweredPart(text: seq<Byte>, from: nat, to: nat, piece: Label)
    requires from <= to <= |text| && text[from..to] == piece
    ensures Lowered(text)[..to] == Lowered(text)[..from] + Lowered(piece)
  {
    forall i | from <= i < to ensures Lowered(text)[i] == Lowered(piece)[i - from] {
      assert text[i] == text[from..to][i - from];
    }
  }

  /** Where label `k` is expected to continue the output. */
  ghost function Progress(labels: seq<Label>, k: nat): nat
    requires k <= |labels|
  {
    if k == 0 then 0 else Offset(labels, k - 1) + |labels[k - 1]|
  }

  /** Writes the dot before every label but the first. */
  method SeparateLabel(output: array<Byte>, ghost labels: seq<Label>, index: nat, offset: nat) returns (here: nat)
    requires index < |labels| && output.Length == |Join(labels)| && offset == Progress(labels, index) <= output.Length
    requires output[..offset] == Lowered(Join(labels))[..offset]
    modifies output
    ensures here == Offset(labels, index) <= output.Length
    ensures output[..here] == Lowered(Join(labels))[..here]
  {
    here := offset;
    if index != 0 {
      DotBefore(labels, index);
      output[offset] := DOT;
      here := offset + 1;
      ghost var low := Lowered(Join(labels));
      assert output[..here] == low[..offset] + [DOT] == low[..here];
    }
  }

  /** The byte a fault is about is the one at its offset in the whole text. */
  lemma FaultStands(e: Error, index: nat, here: nat, piece: Label, text: seq<Byte>)
    requires Fits(piece) && IsFault(e, index, here, piece)
    requires here + |piece| <= |text| && text[here..here + |piece|] == piece
    ensures e.LabelHyphen? || e.LabelCharacter?
    ensures e.offset < |text| && text[e.offset] == if e.LabelHyphen? then HYPHEN else e.value
  {
    assert text[here..here + |piece|][e.offset - here] == text[e.offset];
  }

  lemma FaultIsExplained(e: Error, labels: seq<Label>, index: nat, text: seq<Byte>)
    requires Reached(labels, index) && Fits(labels[index]) && IsFault(e, index, Offset(labels, index), labels[index])
    requires text == Join(labels) && (e.LabelHyphen? || e.LabelCharacter?)
    requires e.offset < |text| && text[e.offset] == if e.LabelHyphen? then HYPHEN else e.value
    ensures Explains(e, labels)
  {
  }

  /** Checks label `index` and appends it, after a dot unless it is the first. */
  method AppendLabel(output: array<Byte>, ghost labels: seq<Label>, index: nat, offset: nat, piece: Label)
    returns (r: Result<nat, Error>)
    requires index < |labels| && piece == labels[index] && AreLabels(labels[..index]) && 1 <= |Join(labels)| <= MAX_NAME
    requires output.Length == |Join(labels)| && offset == Progress(labels, index) <= output.Length
    requires output[..offset] == Lowered(Join(labels))[..offset]
    modifies output
    ensures r.Ok? <==> IsLabel(piece)
    ensures r.Ok? ==> r.value == Progress(labels, index + 1) <= output.Length
    ensures r.Ok? ==> output[..r.value] == Lowered(Join(labels))[..r.value]
    ensures r.Err? ==> Explains(r.error, labels)
  {
    ghost var text := Join(labels);
    JoinPrefix(labels, index);
    if !Fits(piece) { return Err(LabelLength(index, |piece|)); }
    var here := SeparateLabel(output, labels, index, offset);
    var fault := CheckPiece(index, here, piece);
    if fault.Some? {
      FaultStands(fault.value, index, here, piece, text);
      FaultIsExplained(fault.value, labels, index, text);
      return Err(fault.value);
    }
    CopyLowered(output, here, piece);
    LoweredPart(text, here, here + |piece|, piece);
    assert output[..here + |piece|] == output[..here] + output[here..here + |piece|];
    r := Ok(here + |piece|);
  }

  lemma LabelsGrow(labels: seq<Label>, k: nat)
    requires k < |labels| && AreLabels(labels[..k]) && IsLabel(labels[k])
    ensures AreLabels(labels[..k + 1])
  {
    assert labels[..k + 1] == labels[..k] + [labels[k]];
  }

  lemma WholeLength(labels: seq<Label>)
    requires labels != []
    ensures Progress(labels, |labels|) == |Join(labels)| && labels[..|labels|] == labels
  {
    JoinPrefix(labels, |labels| - 1);
    assert labels[..|labels|] == labels;
  }

  /**
    Checks labels and copies them, lowered and dotted, into an output of `total` bytes.
    No write falls outside the output.
  */
  method Assemble(total: nat, labels: seq<Label>) returns (r: Result<seq<Byte>, Error>)
    requires labels != [] && total == |Join(labels)|
    ensures r.Ok? <==> 1 <= total <= MAX_NAME && AreLabels(labels)
    ensures r.Ok? ==> r.value == Lowered(Join(labels))
    ensures r.Err? ==> Explains(r.error, labels)
  {
    if total < 1 { return Err(NameLength(total)); }
    if total > MAX_NAME { return Err(Capacity(total)); }
    var output := new Byte[total];
    var offset := 0;
    for index := 0 to |labels|
      invariant AreLabels(labels[..index])
      invariant offset == Progress(labels, index) <= total
      invariant output[..offset] == Lowered(Join(labels))[..offset]
    {
      var step := AppendLabel(output, labels, index, offset, labels[index]);
      if step.Err? { return Err(step.error); }
      offset := step.value;
      LabelsGrow(labels, index);
    }
    WholeLength(labels);
    assert output[..offset] == output[..];
    r := Ok(output[..]);
  }

  lemma {:induction false} DotBefore(labels: seq<Label>, k: nat)
    requires 0 < k < |labels|
    ensures Offset(labels, k) == Offset(labels, k - 1) + |labels[k - 1]| + 1 <= |Join(labels)|
    ensures Join(labels)[Offset(labels, k) - 1] == DOT
    decreases |labels|
  {
    if k == 1 {
      assert Join(labels)[|labels[0]|] == DOT;
    } else {
      OffsetShifts(labels, k);
      DotBefore(labels[1..], k - 1);
      var head := labels[0] + [DOT];
      assert Join(labels) == head + Join(labels[1..]);
    }
  }

  /** Accepts exactly the host names, with or without a final dot, and stores their lower-case form. */
  method Parse(input: seq<Byte>) returns (r: Result<seq<Byte>, Error>)
    ensures r.Ok? <==> 1 <= |Stripped(input)| <= MAX_NAME && AreLabels(Split(Stripped(input)))
    ensures r.Ok? ==> r.value == Lowered(Stripped(input)) && IsName(r.value)
    ensures r.Ok? ==>
              && input != [] && |r.value| == (if input[|input| - 1] as char == '.' then |input| - 1 else |input|) <= 253
              && forall i | 0 <= i < |r.value| ::
                   r.value[i] == if 'A' <= input[i] as char <= 'Z' then input[i] + 32 else input[i]
    ensures r.Err? ==> Explains(r.error, Split(Stripped(input)))
  {
    var text := Stripped(input);
    JoinAfterSplit(text);
    r := Assemble(|text|, Split(text));
    if r.Ok? { LoweredIsName(text); }
  }

  lemma LoweredGrows(b: Byte, l: Label)
    ensures Lowered([b] + l) == [Lower(b)] + Lowered(l)
  {
  }

  lemma {:induction false} SplitLowered(s: seq<Byte>)
    ensures |Split(Lowered(s))| == |Split(s)|
    ensures forall i | 0 <= i < |Split(s)| :: Split(Lowered(s))[i] == Lowered(Split(s)[i])
  {
    if s == [] {
      assert Split(Lowered(s)) == [[]] && Lowered([]) == [];
    } else {
      assert s == [s[0]] + s[1..] && Lowered(s)[1..] == Lowered(s[1..]);
      SplitLowered(s[1..]);
      var rest, low := Split(s[1..]), Split(Lowered(s[1..]));
      if s[0] == DOT {
        assert Split(Lowered(s)) == [[]] + low && Split(s) == [[]] + rest && Lowered([]) == [];
      } else {
        LoweredGrows(s[0], rest[0]);
        assert Split(Lowered(s)) == [[Lower(s[0])] + low[0]] + low[1..] && Split(s) == [[s[0]] + rest[0]] + rest[1..];
      }
    }
  }

  lemma LoweredIsName(text: seq<Byte>)
    requires 1 <= |text| <= MAX_NAME && AreLabels(Split(text))
    ensures IsName(Lowered(text))
  {
    SplitLowered(text);
    var low := Lowered(text);
    forall i | 0 <= i < |Split(low)| ensures IsLabel(Split(low)[i]) {
      LoweredIsLabel(Split(text)[i]);
    }
    assert Lowered(low) == low by { LoweredTwice(text); }
  }

  lemma LoweredTwice(s: seq<Byte>)
    ensures Lowered(Lowered(s)) == Lowered(s)
  {
  }

  lemma LoweredIsLabel(l: Label)
    requires IsLabel(l)
    ensures IsLabel(Lowered(l))
  {
    forall i | 0 <= i < |l| ensures IsNameByte(Lowered(l)[i]) && (Lowered(l)[i] == HYPHEN ==> l[i] == HYPHEN) {
      assert IsNameByte(l[i]);
    }
  }

  /** A stored name parses back to itself, and equal stored names come from texts equal up to case. */
  lemma NameIsCanonical(name: seq<Byte>)
    requires IsName(name)
    ensures Stripped(name) == name && Lowered(name) == name && AreLabels(Split(Stripped(name)))
  {
    if name[|name| - 1] == DOT {
      LastLabelEmpty(name);
    }
  }

  lemma {:induction false} LastLabelEmpty(s: seq<Byte>)
    requires s != [] && s[|s| - 1] == DOT
    ensures Split(s)[|Split(s)| - 1] == []
  {
    if |s| == 1 {
      assert s[1..] == [];
    } else {
      assert s[1..][|s[1..]| - 1] == DOT;
      LastLabelEmpty(s[1..]);
      if s[0] != DOT && |Split(s[1..])| == 1 {
        JoinAfterSplit(s[1..]);
      }
    }
  }
}

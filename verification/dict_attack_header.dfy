/** The header line of the dictionary-attack screen. The draw routine edits
    the model's header string in place: it may assign a phase title, then
    appends or assigns tags. The edits are modelled as a list of string
    operations run on the previous header, and are shown equal to a
    declarative reference. */
module DictAttackHeader {
  import opened MfClassicPoller
  import opened DictAttackModel

  /** One edit of the header: `furi_string_set` or `furi_string_cat`. */
  datatype HeaderOp = Assign(text: string) | Append(text: string)

  function Perform(op: HeaderOp, h: string): string
  {
    match op
    case Assign(t) => t
    case Append(t) => h + t
  }

  /** The header after performing `ops` in order on `h`. */
  function Run(ops: seq<HeaderOp>, h: string): string
    decreases |ops|
  {
    if |ops| == 0 then h else Run(ops[1..], Perform(ops[0], h))
  }

  /** Some operation of `ops` replaces the whole header. */
  predicate Assigns(ops: seq<HeaderOp>)
  {
    exists i :: 0 <= i < |ops| && ops[i].Assign?
  }

  /** The texts of `ops` concatenated. */
  function Texts(ops: seq<HeaderOp>): string
    decreases |ops|
  {
    if |ops| == 0 then "" else ops[0].text + Texts(ops[1..])
  }

  /** Running two lists is running their concatenation. */
  lemma {:induction false} RunConcat(a: seq<HeaderOp>, b: seq<HeaderOp>, h: string)
    ensures Run(a + b, h) == Run(b, Run(a, h))
    decreases |a|
  {
    if |a| == 0 {
      assert a + b == b;
    } else {
      assert (a + b)[0] == a[0];
      assert (a + b)[1..] == a[1..] + b;
      RunConcat(a[1..], b, Perform(a[0], h));
    }
  }

  /** Once an operation replaces the header, the previous header no longer
      matters. */
  lemma {:induction false} RunForgets(ops: seq<HeaderOp>, h1: string, h2: string)
    requires Assigns(ops)
    ensures Run(ops, h1) == Run(ops, h2)
    decreases |ops|
  {
    if !ops[0].Assign? {
      var i :| 0 <= i < |ops| && ops[i].Assign?;
      assert ops[1..][i - 1].Assign?;
      RunForgets(ops[1..], Perform(ops[0], h1), Perform(ops[0], h2));
    }
  }

  /** Operations that only append extend the previous header by their
      texts. */
  lemma {:induction false} RunAppends(ops: seq<HeaderOp>, h: string)
    requires forall i :: 0 <= i < |ops| ==> ops[i].Append?
    ensures Run(ops, h) == h + Texts(ops)
    decreases |ops|
  {
    if |ops| == 0 {
      assert h + "" == h;
    } else {
      RunAppends(ops[1..], h + ops[0].text);
      assert h + ops[0].text + Texts(ops[1..]) == h + (ops[0].text + Texts(ops[1..]));
    }
  }

  const HardTag := " (Hard)"
  const BackdoorTag := " (Backdoor)"
  const BackdoorReadTitle := "Backdoor Read"

  /** The phases the header switch gives a title. */
  predicate Titled(p: NestedPhase)
  {
    p != NestedPhase.None && p != NestedPhase.Finished
  }

  function Title(p: NestedPhase): string
    requires Titled(p)
  {
    match p
    case AnalyzePrng => "PRNG Analysis"
    case DictAttack | DictAttackVerify | DictAttackResume => "Nested Dictionary"
    case Calibrate | Recalibrate => "Calibration"
    case CollectNtEnc => "Nonce Collection"
  }

  /** The edits of the header switch: a title, or nothing at all for the
      phases it does not list. */
  function SwitchOps(p: NestedPhase): seq<HeaderOp>
  {
    if Titled(p) then [Assign(Title(p))] else []
  }

  /** The edits a draw performs on the header, in source order. */
  function HeaderOps(m: ViewModel): seq<HeaderOp>
  {
    SwitchOps(m.nestedPhase)
    + (if m.prngType == PrngType.Hard then [Append(HardTag)] else [])
    + (if BackdoorPresent(m.backdoor) then
         (if m.nestedPhase != NestedPhase.None then [Append(BackdoorTag)]
          else [Assign(BackdoorReadTitle)])
       else [])
  }

  /** The header a draw leaves in the model. While the tag is lost the
      header is not touched. */
  function NextHeader(m: ViewModel): string
  {
    if m.cardDetected then Run(HeaderOps(m), m.header) else m.header
  }

  /** The tags appended after the title. */
  function Suffix(m: ViewModel): string
  {
    (if m.prngType == PrngType.Hard then HardTag else "")
    + (if BackdoorPresent(m.backdoor) then BackdoorTag else "")
  }

  /** A draw replaces the header wholesale: the phase has a title, or a
      backdoor was found while no nested attack is running. */
  predicate Overwrites(m: ViewModel)
  {
    Titled(m.nestedPhase) || (m.nestedPhase == NestedPhase.None && BackdoorPresent(m.backdoor))
  }

  /** What the header reads after a draw with the tag present, stated
      without the edit sequence. */
  function HeaderReference(m: ViewModel): string
  {
    if m.nestedPhase == NestedPhase.None && BackdoorPresent(m.backdoor) then BackdoorReadTitle
    else (if Titled(m.nestedPhase) then Title(m.nestedPhase) else m.header) + Suffix(m)
  }

  /** The edit sequence computes the reference header. */
  lemma {:induction false} HeaderMatchesReference(m: ViewModel)
    requires m.cardDetected
    ensures NextHeader(m) == HeaderReference(m)
  {
    var sw := SwitchOps(m.nestedPhase);
    var hard := if m.prngType == PrngType.Hard then [Append(HardTag)] else [];
    var door :=
      if BackdoorPresent(m.backdoor) then
        (if m.nestedPhase != NestedPhase.None then [Append(BackdoorTag)]
         else [Assign(BackdoorReadTitle)])
      else [];
    assert HeaderOps(m) == sw + hard + door;
    RunConcat(sw + hard, door, m.header);
    RunConcat(sw, hard, m.header);
    var afterSwitch := Run(sw, m.header);
    assert afterSwitch == (if Titled(m.nestedPhase) then Title(m.nestedPhase) else m.header);
    var afterHard := Run(hard, afterSwitch);
    assert afterHard == afterSwitch + (if m.prngType == PrngType.Hard then HardTag else "");
    if BackdoorPresent(m.backdoor) && m.nestedPhase != NestedPhase.None {
      assert Run(door, afterHard) == afterHard + BackdoorTag;
    }
  }

  /** When a draw replaces the header, the previous header is forgotten. */
  lemma {:induction false} OverwriteForgetsPrevious(m: ViewModel, h1: string, h2: string)
    requires m.cardDetected && Overwrites(m)
    ensures NextHeader(m.(header := h1)) == NextHeader(m.(header := h2))
  {
    var ops := HeaderOps(m);
    assert HeaderOps(m.(header := h1)) == ops && HeaderOps(m.(header := h2)) == ops;
    if Titled(m.nestedPhase) {
      assert ops[0] == Assign(Title(m.nestedPhase));
    } else {
      assert ops[|ops| - 1] == Assign(BackdoorReadTitle);
    }
    RunForgets(ops, h1, h2);
  }

  /** When a draw does not replace the header it only appends: the header
      grows by the suffix on every draw. */
  lemma {:induction false} HeaderAccumulates(m: ViewModel)
    requires m.cardDetected && !Overwrites(m)
    ensures NextHeader(m) == m.header + Suffix(m)
  {
    var ops := HeaderOps(m);
    assert SwitchOps(m.nestedPhase) == [];
    RunAppends(ops, m.header);
    if m.prngType == PrngType.Hard && BackdoorPresent(m.backdoor) {
      assert ops == [Append(HardTag), Append(BackdoorTag)];
      assert Texts(ops) == HardTag + Texts(ops[1..]);
    }
  }
}

/** The three identifiers `ChallanSender.update_random_ids` regenerates
    before every submission. Each is a fixed layout of literal text and
    runs of decimal digits; the random digits are a parameter here. */
module Identifiers {
  import opened Options
  import opened Decimal

  /** One piece of an identifier layout. */
  datatype Segment = Literal(text: string) | DigitRun(width: nat)

  type Layout = seq<Segment>

  /** `runs` supplies one digit string of the right width per digit run. */
  predicate FitsRuns(layout: Layout, runs: seq<string>) {
    if |layout| == 0 then |runs| == 0
    else match layout[0]
      case Literal(_) => FitsRuns(layout[1..], runs)
      case DigitRun(w) =>
        |runs| > 0 && |runs[0]| == w && AllDigits(runs[0]) && FitsRuns(layout[1..], runs[1..])
  }

  function Width(layout: Layout): nat {
    if |layout| == 0 then 0
    else match layout[0]
      case Literal(t) => |t| + Width(layout[1..])
      case DigitRun(w) => w + Width(layout[1..])
  }

  /** The identifier built from a layout and its digit runs. */
  function Fill(layout: Layout, runs: seq<string>): (r: string)
    requires FitsRuns(layout, runs)
    ensures |r| == Width(layout)
  {
    if |layout| == 0 then ""
    else match layout[0]
      case Literal(t) => t + Fill(layout[1..], runs)
      case DigitRun(_) => runs[0] + Fill(layout[1..], runs[1..])
  }

  /** Recognises a string laid out as `layout` (the regular expression the
      layout stands for, anchored at both ends) and returns its digit runs. */
  function Parse(layout: Layout, s: string): Option<seq<string>> {
    if |layout| == 0 then (if |s| == 0 then Some([]) else None)
    else match layout[0]
      case Literal(t) =>
        if |t| <= |s| && s[..|t|] == t then Parse(layout[1..], s[|t|..]) else None
      case DigitRun(w) =>
        if w <= |s| && AllDigits(s[..w]) then
          match Parse(layout[1..], s[w..])
          case Some(rest) => Some([s[..w]] + rest)
          case None => None
        else None
  }

  predicate Matches(layout: Layout, s: string) {
    Parse(layout, s).Some?
  }

  /** Parsing a filled layout gives back the runs it was filled with. */
  lemma {:induction false} ParseFill(layout: Layout, runs: seq<string>)
    requires FitsRuns(layout, runs)
    ensures Parse(layout, Fill(layout, runs)) == Some(runs)
  {
    if |layout| > 0 {
      var s := Fill(layout, runs);
      match layout[0]
      case Literal(t) =>
        ParseFill(layout[1..], runs);
        assert s[..|t|] == t && s[|t|..] == Fill(layout[1..], runs);
      case DigitRun(w) =>
        ParseFill(layout[1..], runs[1..]);
        assert s[..w] == runs[0] && s[w..] == Fill(layout[1..], runs[1..]);
        assert [runs[0]] + runs[1..] == runs;
    }
  }

  /** Every string the parser accepts is a filled layout, with the runs the
      parser reported. */
  lemma {:induction false} FillParse(layout: Layout, s: string)
    requires Parse(layout, s).Some?
    ensures FitsRuns(layout, Parse(layout, s).value)
    ensures Fill(layout, Parse(layout, s).value) == s
  {
    if |layout| > 0 {
      match layout[0]
      case Literal(t) =>
        FillParse(layout[1..], s[|t|..]);
        assert s == s[..|t|] + s[|t|..];
      case DigitRun(w) =>
        FillParse(layout[1..], s[w..]);
        var runs := Parse(layout, s).value;
        assert runs[0] == s[..w] && runs[1..] == Parse(layout[1..], s[w..]).value;
        assert s == s[..w] + s[w..];
    }
  }

  /** Different digit draws never produce the same identifier. */
  lemma FillInjective(layout: Layout, a: seq<string>, b: seq<string>)
    requires FitsRuns(layout, a) && FitsRuns(layout, b)
    requires Fill(layout, a) == Fill(layout, b)
    ensures a == b
  {
    ParseFill(layout, a);
    ParseFill(layout, b);
  }

  const TransactionLayout: Layout := [Literal("REAMN"), DigitRun(12), Literal("A"), DigitRun(4)]
  const RegistrationLayout: Layout := [Literal("DL4CQ"), DigitRun(5)]
  const EquipmentLayout: Layout := [Literal("GTFGF"), DigitRun(5)]

  /** `f"REAMN{12 digits}A{4 digits}"`. */
  function TransactionNo(serial: string, suffix: string): (r: string)
    requires |serial| == 12 && AllDigits(serial)
    requires |suffix| == 4 && AllDigits(suffix)
    ensures |r| == 22
    ensures r[..5] == "REAMN" && r[17] == 'A'
    ensures forall i :: 5 <= i < 17 || 18 <= i < 22 ==> IsDigit(r[i])
    ensures Parse(TransactionLayout, r) == Some([serial, suffix])
  {
    var l1 := [DigitRun(12), Literal("A"), DigitRun(4)];
    var l3 := [DigitRun(4)];
    assert TransactionLayout[1..] == l1 && l1[1..][1..] == l3 && l3[1..] == [];
    assert [serial, suffix][1..] == [suffix] && [suffix][1..] == [];
    assert FitsRuns(l3, [suffix]) && FitsRuns(l1[1..], [suffix]);
    assert Fill(l3, [suffix]) == suffix;
    assert Fill(l1[1..], [suffix]) == "A" + suffix;
    assert Fill(l1, [serial, suffix]) == serial + ("A" + suffix);
    var r := Fill(TransactionLayout, [serial, suffix]);
    assert r == "REAMN" + serial + "A" + suffix;
    ParseFill(TransactionLayout, [serial, suffix]);
    r
  }

  /** A fixed five-character prefix followed by five digits. */
  function Prefixed(prefix: string, digits: string): (r: string)
    requires |prefix| == 5
    requires |digits| == 5 && AllDigits(digits)
    ensures |r| == 10
    ensures r[..5] == prefix
    ensures forall i :: 5 <= i < 10 ==> IsDigit(r[i])
    ensures Parse([Literal(prefix), DigitRun(5)], r) == Some([digits])
  {
    var layout := [Literal(prefix), DigitRun(5)];
    assert layout[1..] == [DigitRun(5)] && layout[1..][1..] == [] && [digits][1..] == [];
    assert Fill(layout[1..], [digits]) == digits;
    var r := Fill(layout, [digits]);
    assert r == prefix + digits;
    ParseFill(layout, [digits]);
    r
  }

  /** `f"DL4CQ{5 digits}"`. */
  function RegistrationNo(digits: string): (r: string)
    requires |digits| == 5 && AllDigits(digits)
    ensures |r| == 10 && r[..5] == "DL4CQ"
    ensures forall i :: 5 <= i < 10 ==> IsDigit(r[i])
    ensures Parse(RegistrationLayout, r) == Some([digits])
  {
    Prefixed("DL4CQ", digits)
  }

  /** `f"GTFGF{5 digits}"`. */
  function EquipmentId(digits: string): (r: string)
    requires |digits| == 5 && AllDigits(digits)
    ensures |r| == 10 && r[..5] == "GTFGF"
    ensures forall i :: 5 <= i < 10 ==> IsDigit(r[i])
    ensures Parse(EquipmentLayout, r) == Some([digits])
  {
    Prefixed("GTFGF", digits)
  }

  /** The digits `random.choices(string.digits, k=...)` returned for one
      call of `update_random_ids`. */
  datatype Draw = Draw(serial: string, suffix: string, registration: string, equipment: string)

  predicate ValidDraw(d: Draw) {
    && |d.serial| == 12 && AllDigits(d.serial)
    && |d.suffix| == 4 && AllDigits(d.suffix)
    && |d.registration| == 5 && AllDigits(d.registration)
    && |d.equipment| == 5 && AllDigits(d.equipment)
  }

  datatype Ids = Ids(transactionNo: string, regnNo: string, equipmentId: string)

  /** `update_random_ids` with its random digits supplied by `d`. */
  function NewIds(d: Draw): (ids: Ids)
    requires ValidDraw(d)
    ensures Matches(TransactionLayout, ids.transactionNo)
    ensures Matches(RegistrationLayout, ids.regnNo)
    ensures Matches(EquipmentLayout, ids.equipmentId)
  {
    Ids(TransactionNo(d.serial, d.suffix), RegistrationNo(d.registration), EquipmentId(d.equipment))
  }

  /** Identifiers determine the draw: two submissions share an identifier
      only if the random generator repeated those very digits. */
  lemma NewIdsInjective(d1: Draw, d2: Draw)
    requires ValidDraw(d1) && ValidDraw(d2)
    ensures NewIds(d1).transactionNo == NewIds(d2).transactionNo <==> d1.serial == d2.serial && d1.suffix == d2.suffix
    ensures NewIds(d1).regnNo == NewIds(d2).regnNo <==> d1.registration == d2.registration
    ensures NewIds(d1).equipmentId == NewIds(d2).equipmentId <==> d1.equipment == d2.equipment
  {
    var a := NewIds(d1);
    var b := NewIds(d2);
    if a.transactionNo == b.transactionNo {
      assert [d1.serial, d1.suffix] == [d2.serial, d2.suffix];
      assert [d1.serial, d1.suffix][0] == d1.serial && [d1.serial, d1.suffix][1] == d1.suffix;
    }
    if a.regnNo == b.regnNo {
      assert [d1.registration] == [d2.registration];
      assert [d1.registration][0] == d1.registration;
    }
    if a.equipmentId == b.equipmentId {
      assert [d1.equipment] == [d2.equipment];
      assert [d1.equipment][0] == d1.equipment;
    }
  }
}

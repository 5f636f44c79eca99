/** The auto-capitalisation of the Location and District fields
    (`ChallanSender.capitalize_first_letter` and the `textChanged`
    connections that invoke it). Only ASCII letters are case-mapped. */
module Capitalization {

  predicate IsLower(c: char) {
    'a' <= c <= 'z'
  }

  predicate IsUpper(c: char) {
    'A' <= c <= 'Z'
  }

  /** `str.upper()` restricted to one ASCII character. */
  function Upper(c: char): (r: char)
    ensures IsLower(c) ==> IsUpper(r) && r as int == c as int - 32
    ensures !IsLower(c) ==> r == c
    ensures !IsLower(r)
  {
    if IsLower(c) then (c as int - 32) as char else c
  }

  /** `text[0].upper() + text[1:]` guarded by `if text:`. */
  function Capitalize(text: string): (r: string)
    ensures |r| == |text|
    ensures |text| == 0 ==> r == text
    ensures |text| > 0 ==> r[0] == Upper(text[0])
    ensures forall j :: 1 <= j < |text| ==> r[j] == text[j]
  {
    if |text| == 0 then text else [Upper(text[0])] + text[1..]
  }

  /** A field is settled when the handler would not write it back. */
  predicate Settled(text: string) {
    Capitalize(text) == text
  }

  /** Capitalising twice is capitalising once. */
  lemma CapitalizeIdempotent(text: string)
    ensures Capitalize(Capitalize(text)) == Capitalize(text)
  {
    if |text| > 0 {
      var once := Capitalize(text);
      assert Capitalize(once) == [Upper(once[0])] + once[1..];
    }
  }

  /** The handler leaves a field alone exactly when it is empty or does not
      start with a lower-case letter. */
  lemma SettledIff(text: string)
    ensures Settled(text) <==> (|text| == 0 || !IsLower(text[0]))
  {
    if |text| > 0 && !IsLower(text[0]) {
      assert Capitalize(text) == [text[0]] + text[1..];
      assert [text[0]] + text[1..] == text;
    }
  }

  /** Number of watched fields whose text the handler would rewrite. */
  function Pending(fields: seq<string>): (n: nat)
    ensures n <= |fields|
  {
    if |fields| == 0 then 0
    else (if Settled(fields[0]) then 0 else 1) + Pending(fields[1..])
  }

  lemma {:induction false} PendingZero(fields: seq<string>)
    requires forall j :: 0 <= j < |fields| ==> Settled(fields[j])
    ensures Pending(fields) == 0
  {
    if |fields| > 0 {
      PendingZero(fields[1..]);
    }
  }

  /** Writing the capitalised text into an unsettled field removes exactly
      that field from the pending count. */
  lemma {:induction false} PendingAfterWrite(fields: seq<string>, i: nat)
    requires i < |fields| && !Settled(fields[i])
    ensures Pending(fields[i := Capitalize(fields[i])]) == Pending(fields) - 1
  {
    var written := fields[i := Capitalize(fields[i])];
    CapitalizeIdempotent(fields[i]);
    if i == 0 {
      assert written[1..] == fields[1..];
    } else {
      PendingAfterWrite(fields[1..], i - 1);
      assert written[1..] == fields[1..][i - 1 := Capitalize(fields[i])];
    }
  }

  /** Outcome of one handler invocation: the texts left in the fields and
      the number of `setText` calls made, counting re-entrant ones. */
  datatype Outcome = Outcome(fields: seq<string>, writes: nat)

  /** One invocation of the handler, continuing its loop at field `i`.
      A `setText` fires `textChanged` synchronously, which re-enters the
      handler from the first field before the loop resumes. Termination is
      the point: each write settles a field for good, so the number of
      pending fields bounds the nesting depth. */
  function OnTextChanged(fields: seq<string>, i: nat): (r: Outcome)
    requires i <= |fields|
    requires forall j :: 0 <= j < i ==> Settled(fields[j])
    ensures |r.fields| == |fields|
    ensures forall j :: 0 <= j < |fields| ==> r.fields[j] == Capitalize(fields[j])
    ensures r.writes == Pending(fields)
    decreases Pending(fields), |fields| - i
  {
    if i == |fields| then
      PendingZero(fields);
      Outcome(fields, 0)
    else if Settled(fields[i]) then
      OnTextChanged(fields, i + 1)
    else
      var written := fields[i := Capitalize(fields[i])];
      PendingAfterWrite(fields, i);
      var nested := OnTextChanged(written, 0);
      assert forall j :: 0 <= j < |fields| ==> Settled(nested.fields[j]) by {
        forall j | 0 <= j < |fields|
          ensures Settled(nested.fields[j])
        {
          CapitalizeIdempotent(written[j]);
        }
      }
      PendingZero(nested.fields);
      var rest := OnTextChanged(nested.fields, i + 1);
      Outcome(rest.fields, 1 + nested.writes + rest.writes)
  }

  /** After the handler has run, running it again writes nothing: the
      re-entrant `textChanged` call is a no-op and the chain stops. */
  lemma HandlerQuiescent(fields: seq<string>)
    ensures OnTextChanged(OnTextChanged(fields, 0).fields, 0).writes == 0
  {
    var after := OnTextChanged(fields, 0).fields;
    forall j | 0 <= j < |after|
      ensures Settled(after[j])
    {
      CapitalizeIdempotent(fields[j]);
    }
    PendingZero(after);
  }

  /** Typing "delhi" into a watched field leaves "Delhi" after one write. */
  lemma DelhiExample()
    ensures OnTextChanged(["delhi", ""], 0) == Outcome(["Delhi", ""], 1)
  {
    var out := OnTextChanged(["delhi", ""], 0);
    assert Capitalize("delhi") == "Delhi";
    assert Capitalize("") == "";
    assert !Settled("delhi");
    assert Pending(["delhi", ""]) == 1 by {
      assert ["delhi", ""][1..] == [""];
    }
    assert out.fields == ["Delhi", ""];
  }
}

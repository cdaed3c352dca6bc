/**
 * Decoding of push-notification payloads (the `data` object of a notification) into the
 * identifiers the two notification feeds hand to the app: a load id for the loads feed, a
 * statement id and week range for the statements feed.
 */
module Payload {
  import opened Wrappers
  import opened Js

  /** One candidate field: a string that is not blank after trimming is taken as it is
      (untrimmed); a number that is not NaN is taken as its decimal text; anything else
      (missing, null, booleans, NaN, objects, arrays, blank strings) is skipped. */
  function Accept(v: Option<Value>): (r: Option<string>)
    ensures (v.Some? && v.value.Str? && !Blank(v.value.s)) ==> r == Some(v.value.s)
    ensures (v.Some? && v.value.Num?) ==> r == Some(IntToString(v.value.n))
    ensures r.Some? <==> v.Some? && ((v.value.Str? && !Blank(v.value.s)) || v.value.Num?)
    ensures r.Some? ==> r.value != ""
  {
    match v
    case Some(Str(s)) =>
      if |Trim(s)| > 0 then Some(s) else None
    case Some(Num(n)) => Some(IntToString(n))
    case _ => None
  }

  /** `Accept` read as the two tests the decoding loops make, in their order. */
  lemma AcceptCases(v: Option<Value>)
    ensures v.Some? && v.value.Str? && |Trim(v.value.s)| > 0 ==> Accept(v) == Some(v.value.s)
    ensures v.Some? && v.value.Num? ==> Accept(v) == Some(IntToString(v.value.n))
    ensures !(v.Some? && v.value.Str? && |Trim(v.value.s)| > 0) && !(v.Some? && v.value.Num?)
            ==> Accept(v).None?
  {
  }

  /** The value of the first acceptable candidate, in list order. */
  function FirstAccepted(candidates: seq<Option<Value>>): (r: Option<string>)
    ensures r.None? <==> forall i | 0 <= i < |candidates| :: Accept(candidates[i]).None?
    ensures r.Some? ==> r.value != ""
  {
    if candidates == [] then None
    else if Accept(candidates[0]).Some? then Accept(candidates[0])
    else
      var rest := FirstAccepted(candidates[1..]);
      assert forall i | 1 <= i < |candidates| :: candidates[i] == candidates[1..][i - 1];
      rest
  }

  /** The first acceptable candidate wins, whatever the later ones hold. */
  lemma {:induction false} FirstAcceptedAt(candidates: seq<Option<Value>>, k: nat)
    requires k < |candidates| && Accept(candidates[k]).Some?
    requires forall j | 0 <= j < k :: Accept(candidates[j]).None?
    ensures FirstAccepted(candidates) == Accept(candidates[k])
  {
    if k > 0 {
      assert Accept(candidates[0]).None?;
      assert forall j | 0 <= j < k - 1 :: candidates[1..][j] == candidates[j + 1];
      FirstAcceptedAt(candidates[1..], k - 1);
    }
  }

  // ---------- loads feed ----------

  /** The keys `extractLoadId` tries, in order. */
  const LoadIdKeys: seq<string> := ["load_id", "loadId", "load", "id"]

  function Candidates(data: Value, keys: seq<string>): (r: seq<Option<Value>>)
    ensures |r| == |keys|
    ensures forall i | 0 <= i < |keys| :: r[i] == Field(data, keys[i])
  {
    seq(|keys|, i requires 0 <= i < |keys| => Field(data, keys[i]))
  }

  /** `extractLoadId(data)`. */
  function ExtractLoadId(data: Value): (r: Option<string>)
    ensures !IsObject(data) ==> r.None?
  {
    if !IsObject(data) then None else FirstAccepted(Candidates(data, LoadIdKeys))
  }

  /** The load id is the first acceptable one of load_id, loadId, load, id, whatever
      the later keys hold; with none acceptable there is no id. */
  lemma LoadIdFirstMatch(data: Value, k: nat)
    requires IsObject(data) && k < |LoadIdKeys|
    requires Accept(Field(data, LoadIdKeys[k])).Some?
    requires forall j | 0 <= j < k :: Accept(Field(data, LoadIdKeys[j])).None?
    ensures ExtractLoadId(data) == Accept(Field(data, LoadIdKeys[k]))
  {
    var c := Candidates(data, LoadIdKeys);
    assert forall j | 0 <= j < k :: Accept(c[j]).None?;
    FirstAcceptedAt(c, k);
  }

  lemma LoadIdNone(data: Value)
    ensures ExtractLoadId(data).None? <==>
              forall k | 0 <= k < |LoadIdKeys| :: Accept(Field(data, LoadIdKeys[k])).None?
  {
    var c := Candidates(data, LoadIdKeys);
    if !IsObject(data) {
      assert forall k | 0 <= k < |LoadIdKeys| :: Field(data, LoadIdKeys[k]).None?;
    }
  }

  /** `{loadId: 42}` decodes to "42": a number is taken as its decimal text. */
  lemma LoadIdFromNumber()
    ensures ExtractLoadId(Obj(map["loadId" := Num(42)])) == Some("42")
  {
    var d := Obj(map["loadId" := Num(42)]);
    assert Field(d, "load_id") == None;
    assert NatToString(42) == "42";
    LoadIdFirstMatch(d, 1);
  }

  /** `{}` decodes to nothing. */
  lemma LoadIdFromEmptyObject()
    ensures ExtractLoadId(Obj(map[])) == None
  {
    LoadIdNone(Obj(map[]));
  }

  /** With load_id, loadId and load all unacceptable, the id key decides. */
  lemma LoadIdFallsBackToId(d: Value)
    requires IsObject(d)
    requires Accept(Field(d, "load_id")).None? && Accept(Field(d, "loadId")).None?
    requires Accept(Field(d, "load")).None? && Accept(Field(d, "id")).Some?
    ensures ExtractLoadId(d) == Accept(Field(d, "id"))
  {
    assert LoadIdKeys[0] == "load_id" && LoadIdKeys[1] == "loadId" && LoadIdKeys[2] == "load";
    forall j | 0 <= j < 3 ensures Accept(Field(d, LoadIdKeys[j])).None? {
      if j == 0 {} else if j == 1 {} else {}
    }
    LoadIdFirstMatch(d, 3);
  }

  /** A blank load_id gives way to a later key; the accepted string is not trimmed. */
  lemma LoadIdSkipsBlank(d: Value)
    requires d == Obj(map["load_id" := Str("  "), "id" := Str(" 7 ")])
    ensures ExtractLoadId(d) == Some(" 7 ")
  {
    assert Accept(Field(d, "load_id")) == None by {
      assert Field(d, "load_id") == Some(Str("  "));
      assert forall i | 0 <= i < 2 :: "  "[i] == ' ';
    }
    assert Accept(Field(d, "loadId")) == None && Accept(Field(d, "load")) == None by {
      assert Field(d, "loadId") == None && Field(d, "load") == None;
    }
    assert Accept(Field(d, "id")) == Some(" 7 ") by {
      assert Field(d, "id") == Some(Str(" 7 "));
      assert !Blank(" 7 ") by { assert " 7 "[1] == '7'; }
    }
    LoadIdFallsBackToId(d);
  }

  // ---------- statements feed ----------

  /** The keys `extractStatementInfo` tries for the statement id, in order. */
  const StatementIdKeys: seq<string> := ["statement_id", "statementId", "id"]

  /** A decoded statement notification: either part may be missing. */
  datatype StatementIntent = StatementIntent(statementId: Option<string>, weekRange: Option<string>)

  /** week_range if it is a string, else weekRange if it is a string (empty strings count). */
  function WeekRange(data: Value): (r: Option<string>)
    ensures (Field(data, "week_range").Some? && Field(data, "week_range").value.Str?)
            ==> r == Some(Field(data, "week_range").value.s)
    ensures !(Field(data, "week_range").Some? && Field(data, "week_range").value.Str?)
            ==> r == (if Field(data, "weekRange").Some? && Field(data, "weekRange").value.Str?
                      then Some(Field(data, "weekRange").value.s) else None)
  {
    match (Field(data, "week_range"), Field(data, "weekRange"))
    case (Some(Str(w)), _) => Some(w)
    case (_, Some(Str(w))) => Some(w)
    case _ => None
  }

  /** What `extractStatementInfo(data)` returns. */
  function StatementInfo(data: Value): (r: StatementIntent)
    ensures !IsObject(data) ==> r == StatementIntent(None, None)
  {
    if !IsObject(data) then StatementIntent(None, None)
    else StatementIntent(FirstAccepted(Candidates(data, StatementIdKeys)), WeekRange(data))
  }

  /** `extractStatementInfo`: the object guard, the candidate loop, then the week range. */
  method ExtractStatementInfo(data: Value) returns (statementId: Option<string>, weekRange: Option<string>)
    ensures StatementIntent(statementId, weekRange) == StatementInfo(data)
  {
    if !IsObject(data) {
      return None, None;
    }
    statementId := FirstStatementId(Candidates(data, StatementIdKeys));
    weekRange := WeekRange(data);
  }

  /** The candidate loop: the first acceptable candidate is assigned and the loop breaks. */
  method FirstStatementId(idCandidates: seq<Option<Value>>) returns (statementId: Option<string>)
    ensures statementId == FirstAccepted(idCandidates)
  {
    statementId := None;
    var i := 0;
    while i < |idCandidates|
      invariant 0 <= i <= |idCandidates|
      invariant statementId.None?
      invariant forall j | 0 <= j < i :: Accept(idCandidates[j]).None?
    {
      var v := idCandidates[i];
      AcceptCases(v);
      if v.Some? && v.value.Str? && |Trim(v.value.s)| > 0 {
        statementId := Some(v.value.s);
        FirstAcceptedAt(idCandidates, i);
        break;
      }
      if v.Some? && v.value.Num? {
        statementId := Some(IntToString(v.value.n));
        FirstAcceptedAt(idCandidates, i);
        break;
      }
      i := i + 1;
    }
  }

  /** The statement id is the first acceptable one of statement_id, statementId, id. */
  lemma StatementIdFirstMatch(data: Value, k: nat)
    requires IsObject(data) && k < |StatementIdKeys|
    requires Accept(Field(data, StatementIdKeys[k])).Some?
    requires forall j | 0 <= j < k :: Accept(Field(data, StatementIdKeys[j])).None?
    ensures StatementInfo(data).statementId == Accept(Field(data, StatementIdKeys[k]))
  {
    var c := Candidates(data, StatementIdKeys);
    assert forall j | 0 <= j < k :: Accept(c[j]).None?;
    FirstAcceptedAt(c, k);
  }

  /** `{type: "statement", statement_id: "s1", week_range: "2024-W10"}` gives both parts. */
  lemma StatementFull()
    ensures StatementInfo(Obj(map["type" := Str("statement"), "statement_id" := Str("s1"),
                                  "week_range" := Str("2024-W10")]))
            == StatementIntent(Some("s1"), Some("2024-W10"))
  {
    var d := Obj(map["type" := Str("statement"), "statement_id" := Str("s1"),
                     "week_range" := Str("2024-W10")]);
    assert Field(d, "statement_id") == Some(Str("s1"));
    assert Field(d, "week_range") == Some(Str("2024-W10"));
    assert !IsSpace("s1"[0]);
    StatementIdFirstMatch(d, 0);
  }

  /** `{type: "statement"}` gives neither part. */
  lemma StatementBare()
    ensures StatementInfo(Obj(map["type" := Str("statement")])) == StatementIntent(None, None)
  {
    var d := Obj(map["type" := Str("statement")]);
    assert Field(d, "statement_id") == None;
    assert Field(d, "statementId") == None;
    assert Field(d, "id") == None;
    assert Field(d, "week_range") == None;
    assert Field(d, "weekRange") == None;
    assert Candidates(d, StatementIdKeys) == [None, None, None];
  }

  /** Only payloads with `type === "statement"` reach the statements callback. */
  predicate IsStatementPayload(data: Value)
    ensures IsStatementPayload(data) ==> data.Obj? && "type" in data.fields && data.fields["type"] == Str("statement")
    ensures IsStatementPayload(data) ==> StatementInfo(data) == StatementIntent(
              FirstAccepted(Candidates(data, StatementIdKeys)), WeekRange(data))
  {
    Field(data, "type") == Some(Str("statement"))
  }
}

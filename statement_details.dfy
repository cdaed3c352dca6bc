/**
 * The statement-detail screen: its display helpers (`fmtStop`, the `Row` value rule,
 * `boolTxt`, the lists read out of `data.raw`) and the `load()` flow that validates the
 * route id and the user, fetches the statement and sets the error, data and loading state.
 */
module StatementDetails {
  import opened Wrappers
  import opened Js

  // ---------- Array.prototype.filter(Boolean) and join ----------

  /** `parts.filter(Boolean)` on strings: the non-empty ones, in order. */
  function NonEmpty(parts: seq<string>): (r: seq<string>)
    ensures |r| <= |parts|
    ensures forall i | 0 <= i < |r| :: r[i] != ""
    ensures forall x :: x in r <==> x in parts && x != ""
  {
    if parts == [] then []
    else if parts[0] == "" then NonEmpty(parts[1..])
    else [parts[0]] + NonEmpty(parts[1..])
  }

  /** `values.filter(Boolean)`: the truthy ones, in order. */
  function TruthyValues(values: seq<Value>): (r: seq<Value>)
    ensures |r| <= |values|
    ensures forall i | 0 <= i < |r| :: Truthy(Some(r[i]))
    ensures forall x :: x in r <==> x in values && Truthy(Some(x))
  {
    if values == [] then []
    else if !Truthy(Some(values[0])) then TruthyValues(values[1..])
    else [values[0]] + TruthyValues(values[1..])
  }

  /** The filter works element by element: filtering a concatenation filters each side. */
  lemma {:induction false} NonEmptyAppend(a: seq<string>, b: seq<string>)
    ensures NonEmpty(a + b) == NonEmpty(a) + NonEmpty(b)
  {
    if a != [] {
      var t := a + b;
      assert t != [] && t[0] == a[0] && t[1..] == a[1..] + b;
      NonEmptyAppend(a[1..], b);
      if a[0] != "" {
        assert NonEmpty(t) == [a[0]] + NonEmpty(a[1..] + b);
        assert NonEmpty(a) == [a[0]] + NonEmpty(a[1..]);
      } else {
        assert NonEmpty(t) == NonEmpty(a[1..] + b);
        assert NonEmpty(a) == NonEmpty(a[1..]);
      }
    } else {
      assert a + b == b;
    }
  }

  lemma NonEmptySingle(x: string)
    ensures NonEmpty([x]) == (if x == "" then [] else [x])
  {
    assert [x][1..] == [];
  }

  lemma {:induction false} TruthyValuesAppend(a: seq<Value>, b: seq<Value>)
    ensures TruthyValues(a + b) == TruthyValues(a) + TruthyValues(b)
  {
    if a != [] {
      var t := a + b;
      assert t != [] && t[0] == a[0] && t[1..] == a[1..] + b;
      TruthyValuesAppend(a[1..], b);
      if Truthy(Some(a[0])) {
        assert TruthyValues(t) == [a[0]] + TruthyValues(a[1..] + b);
        assert TruthyValues(a) == [a[0]] + TruthyValues(a[1..]);
      } else {
        assert TruthyValues(t) == TruthyValues(a[1..] + b);
        assert TruthyValues(a) == TruthyValues(a[1..]);
      }
    } else {
      assert a + b == b;
    }
  }

  lemma TruthyValuesSingle(x: Value)
    ensures TruthyValues([x]) == (if Truthy(Some(x)) then [x] else [])
  {
    assert [x][1..] == [];
  }

  /** `parts.join(sep)`. */
  function Join(parts: seq<string>, sep: string): (r: string)
    ensures parts == [] ==> r == ""
    ensures |parts| == 1 ==> r == parts[0]
  {
    if parts == [] then ""
    else if |parts| == 1 then parts[0]
    else parts[0] + sep + Join(parts[1..], sep)
  }

  /** The total length of the parts. */
  function TotalLength(parts: seq<string>): nat {
    if parts == [] then 0 else |parts[0]| + TotalLength(parts[1..])
  }

  /** Joining non-empty parts: the text is empty only for no parts, starts with the first
      part and ends with the last one (no leading or trailing separator), and holds the
      parts and exactly one separator between each neighbouring pair. */
  lemma {:induction false} JoinNonEmptyParts(parts: seq<string>, sep: string)
    requires forall i | 0 <= i < |parts| :: parts[i] != ""
    ensures Join(parts, sep) == "" <==> parts == []
    ensures parts != [] ==> |parts[0]| <= |Join(parts, sep)| && Join(parts, sep)[..|parts[0]|] == parts[0]
    ensures parts != [] ==>
              var r, last := Join(parts, sep), parts[|parts| - 1];
              |last| <= |r| && r[|r| - |last|..] == last
    ensures parts != [] ==> |Join(parts, sep)| == TotalLength(parts) + (|parts| - 1) * |sep|
  {
    if |parts| > 1 {
      var rest := parts[1..];
      JoinNonEmptyParts(rest, sep);
      var r := Join(parts, sep);
      var tail := Join(rest, sep);
      assert r == parts[0] + sep + tail;
      assert r[..|parts[0]|] == parts[0];
      assert parts[|parts| - 1] == rest[|rest| - 1];
      var last := parts[|parts| - 1];
      assert r[|r| - |last|..] == tail[|tail| - |last|..];
    }
  }

  // ---------- fmtStop ----------

  /** `stop.key || ""`: the property when it is truthy, the empty string otherwise. */
  function OrEmpty(stop: Value, key: string): (r: Value)
    ensures Truthy(Field(stop, key)) ==> r == Field(stop, key).value
    ensures !Truthy(Field(stop, key)) ==> r == Str("")
  {
    var f := Field(stop, key);
    if Truthy(f) then f.value else Str("")
  }

  /** `[a, b].filter(Boolean).join(sep)` over property values. */
  function JoinTruthy(values: seq<Value>, sep: string): (r: string)
    ensures (forall i | 0 <= i < |values| :: !Truthy(Some(values[i]))) ==> r == ""
  {
    var kept := TruthyValues(values);
    Join(seq(|kept|, i requires 0 <= i < |kept| => ToJsString(kept[i])), sep)
  }

  const Dash := "—"

  /** The parts of a stop's text, before empty ones are dropped: company • address, the
      date, and time_from–time_to. `dateText` is what `safeDate(stop.date)` renders;
      dates are formatted outside this model. */
  function StopParts(stop: Value, dateText: string): (r: seq<string>)
    ensures |r| == 3
    ensures r[1] == (if Truthy(Field(stop, "date")) then dateText else "")
  {
    var address := OrEmpty(stop, "address");
    var company := OrEmpty(stop, "company");
    var timeFrom := OrEmpty(stop, "time_from");
    var timeTo := OrEmpty(stop, "time_to");
    var date := if Truthy(Field(stop, "date")) then dateText else "";
    [JoinTruthy([company, address], " • "), date, JoinTruthy([timeFrom, timeTo], "–")]
  }

  /** Two non-empty strings joined: the first, the separator, the second. */
  lemma JoinTruthyPair(a: string, b: string, sep: string)
    requires a != "" && b != ""
    ensures JoinTruthy([Str(a), Str(b)], sep) == a + sep + b
  {
    TruthyValuesSingle(Str(b));
    assert [Str(a), Str(b)][1..] == [Str(b)];
    assert TruthyValues([Str(a), Str(b)]) == [Str(a), Str(b)];
    var texts := seq(2, i requires 0 <= i < 2 => ToJsString([Str(a), Str(b)][i]));
    assert texts == [a, b];
    assert texts[1..] == [b];
  }

  /** The core part is company then address, and the window is time_from then time_to. */
  lemma StopPartsOrder(stop: Value, dateText: string, company: string, address: string)
    requires company != "" && address != ""
    requires Field(stop, "company") == Some(Str(company)) && Field(stop, "address") == Some(Str(address))
    ensures StopParts(stop, dateText)[0] == company + " • " + address
  {
    JoinTruthyPair(company, address, " • ");
  }

  lemma StopWindowOrder(stop: Value, dateText: string, timeFrom: string, timeTo: string)
    requires timeFrom != "" && timeTo != ""
    requires Field(stop, "time_from") == Some(Str(timeFrom)) && Field(stop, "time_to") == Some(Str(timeTo))
    ensures StopParts(stop, dateText)[2] == timeFrom + "–" + timeTo
  {
    JoinTruthyPair(timeFrom, timeTo, "–");
  }

  /** With all three parts non-empty, fmtStop is core | date | window, in that order. */
  lemma FmtStopAllParts(stop: Value, dateText: string)
    requires Truthy(Some(stop))
    requires forall i | 0 <= i < 3 :: StopParts(stop, dateText)[i] != ""
    ensures var p := StopParts(stop, dateText);
            FmtStop(Some(stop), dateText) == p[0] + " | " + p[1] + " | " + p[2]
  {
    var p := StopParts(stop, dateText);
    assert p == [p[0]] + [p[1]] + [p[2]];
    NonEmptyAppend([p[0]] + [p[1]], [p[2]]);
    NonEmptyAppend([p[0]], [p[1]]);
    NonEmptySingle(p[0]);
    NonEmptySingle(p[1]);
    NonEmptySingle(p[2]);
    assert NonEmpty(p) == [p[0], p[1], p[2]];
    JoinThree(p[0], p[1], p[2], " | ");
  }

  lemma JoinThree(a: string, b: string, c: string, sep: string)
    ensures Join([a, b, c], sep) == a + sep + b + sep + c
  {
    assert [a, b, c][1..] == [b, c];
    assert [b, c][1..] == [c];
    assert Join([b, c], sep) == b + sep + c;
    assert Join([a, b, c], sep) == a + sep + (b + sep + c);
  }

  /** `fmtStop(stop)`. */
  function FmtStop(stop: Option<Value>, dateText: string): (r: string)
    ensures !Truthy(stop) ==> r == Dash
    ensures Truthy(stop) ==> (r == "" <==> forall i | 0 <= i < 3 :: StopParts(stop.value, dateText)[i] == "")
  {
    if !Truthy(stop) then Dash
    else
      var parts := StopParts(stop.value, dateText);
      var kept := NonEmpty(parts);
      JoinNonEmptyParts(kept, " | ");
      assert kept == [] <==> forall i | 0 <= i < 3 :: parts[i] == "" by {
        assert forall i | 0 <= i < 3 :: parts[i] in parts;
        if kept != [] {
          assert kept[0] in parts;
        }
      }
      Join(kept, " | ")
  }

  /** A falsy stop renders "—"; any other stop renders its non-empty parts joined by " | ",
      beginning with the first of them and ending with the last, and nothing at all when
      every part is empty. */
  lemma FmtStopShape(stop: Option<Value>, dateText: string)
    ensures !Truthy(stop) ==> FmtStop(stop, dateText) == "—"
    ensures Truthy(stop) ==>
              var kept := NonEmpty(StopParts(stop.value, dateText));
              && FmtStop(stop, dateText) == Join(kept, " | ")
              && (FmtStop(stop, dateText) == "" <==> kept == [])
              && (kept != [] ==> FmtStop(stop, dateText)[..|kept[0]|] == kept[0])
              && (kept != [] ==>
                    var r, last := FmtStop(stop, dateText), kept[|kept| - 1];
                    |last| <= |r| && r[|r| - |last|..] == last)
              && (forall x :: x in kept <==> x in StopParts(stop.value, dateText) && x != "")
  {
    if Truthy(stop) {
      JoinNonEmptyParts(NonEmpty(StopParts(stop.value, dateText)), " | ");
    }
  }

  /** The two inner joins of the example below. */
  lemma JoinTruthySingle(a: string, sep: string)
    requires a != ""
    ensures JoinTruthy([Str(a), Str("")], sep) == a
  {
    assert TruthyValues([Str(a), Str("")]) == [Str(a)] by {
      assert TruthyValues([Str("")]) == [];
    }
    assert seq(1, i requires 0 <= i < 1 => ToJsString([Str(a)][i])) == [a];
  }

  lemma StopPartsExample(stop: Value)
    requires stop == Obj(map["company" := Str("ACME"), "address" := Str(""), "time_from" := Str("08:00")])
    ensures StopParts(stop, "unused") == ["ACME", "", "08:00"]
  {
    assert OrEmpty(stop, "company") == Str("ACME");
    assert OrEmpty(stop, "address") == Str("");
    assert OrEmpty(stop, "time_from") == Str("08:00");
    assert OrEmpty(stop, "time_to") == Str("");
    assert Field(stop, "date") == None;
    JoinTruthySingle("ACME", " • ");
    JoinTruthySingle("08:00", "–");
  }

  /** Example: company and start time only, no date. */
  lemma FmtStopExample(stop: Value)
    requires stop == Obj(map["company" := Str("ACME"), "address" := Str(""), "time_from" := Str("08:00")])
    ensures FmtStop(Some(stop), "unused") == "ACME | 08:00"
  {
    StopPartsExample(stop);
    JoinPartsExample(["ACME", "", "08:00"]);
  }

  lemma JoinPartsExample(parts: seq<string>)
    requires parts == ["ACME", "", "08:00"]
    ensures Join(NonEmpty(parts), " | ") == "ACME | 08:00"
  {
    assert NonEmpty(parts) == ["ACME", "08:00"] by {
      assert NonEmpty(["08:00"]) == ["08:00"];
      assert parts[1..] == ["", "08:00"];
      assert parts[1..][1..] == ["08:00"];
    }
    assert Join(["ACME", "08:00"], " | ") == "ACME" + " | " + "08:00";
  }

  // ---------- Row, boolTxt ----------

  /** The text a `Row` shows for `value`. */
  function RowText(value: Option<Value>): (r: string)
    ensures r != ""
    ensures (value.Some? && !value.value.Null? && ToJsString(value.value) != "")
            ==> r == ToJsString(value.value)
    ensures (value.None? || value.value.Null? || ToJsString(value.value) == "") ==> r == "—"
  {
    if value.Some? && !value.value.Null? && |ToJsString(value.value)| > 0 then ToJsString(value.value)
    else Dash
  }

  /** The Row of a stop (the Pickup and Delivery rows, `Row value={fmtStop(...)}`): "—" for a falsy stop or
      one with no usable part, and otherwise exactly fmtStop's text. */
  lemma StopRow(stop: Option<Value>, dateText: string)
    ensures !Truthy(stop) ==> RowText(Some(Str(FmtStop(stop, dateText)))) == Dash
    ensures Truthy(stop) && (exists i | 0 <= i < 3 :: StopParts(stop.value, dateText)[i] != "")
            ==> RowText(Some(Str(FmtStop(stop, dateText)))) == FmtStop(stop, dateText)
    ensures Truthy(stop) && (forall i | 0 <= i < 3 :: StopParts(stop.value, dateText)[i] == "")
            ==> RowText(Some(Str(FmtStop(stop, dateText)))) == Dash
  {
  }

  /** `boolTxt(v)`. */
  function BoolTxt(v: Option<Value>): (r: string)
    ensures r == "Да" <==> Truthy(v)
    ensures r == "Нет" <==> !Truthy(v)
  {
    if Truthy(v) then "Да" else "Нет"
  }

  // ---------- lists out of data.raw ----------

  /** `data.raw ?? {}`. */
  function Raw(data: Value): (r: Value)
    ensures Field(data, "raw").Some? && !Field(data, "raw").value.Null? ==> r == data.fields["raw"]
    ensures Field(data, "raw").None? || Field(data, "raw").value.Null? ==> r == Obj(map[])
  {
    Coalesce(Field(data, "raw"), Obj(map[]))
  }

  /** `Array.isArray(raw[key]) ? raw[key] : []`, for loads, expenses and inspections. */
  function RawList(data: Value, key: string): (r: seq<Value>)
    ensures (Field(Raw(data), key).Some? && Field(Raw(data), key).value.Arr?)
            ==> r == Field(Raw(data), key).value.items
    ensures !(Field(Raw(data), key).Some? && Field(Raw(data), key).value.Arr?) ==> r == []
  {
    match Field(Raw(data), key)
    case Some(Arr(items)) => items
    case _ => []
  }

  /** Without a `raw` object every list is empty. */
  lemma RawListsWithoutRaw(data: Value)
    requires Field(data, "raw").None? || !Field(data, "raw").value.Obj?
    ensures RawList(data, "loads") == [] && RawList(data, "expenses") == [] && RawList(data, "inspections") == []
  {
  }

  // ---------- load() ----------

  const MissingId := "Missing statement id"
  const DriverOnly := "Доступно только для роли driver."
  const DetailsFailed := "Не удалось получить детали стейтмента"
  const LoadFailed := "Ошибка загрузки"
  const NoData := "Нет данных"

  /** The response of the details request: `res.ok` and the parsed body. A request that
      throws, or a body that is not JSON, is a `Threw`. */
  datatype Reply = Reply(ok: bool, json: Value)

  /** How one `load()` ends: an error message (and whether the request had been sent), or
      the statement that `setData(json.statement || null)` stores. */
  datatype LoadOutcome = Failed(message: string, fetched: bool) | Loaded(statement: Option<Value>)

  /** `e?.message || "Ошибка загрузки"`. */
  function Message(thrown: string): (r: string)
    ensures r != ""
    ensures thrown != "" ==> r == thrown
    ensures thrown == "" ==> r == LoadFailed
  {
    if thrown != "" then thrown else LoadFailed
  }

  predicate IsDriver(user: Value)
    ensures IsDriver(user) <==> user.Obj? && "role" in user.fields && user.fields["role"] == Str("driver")
  {
    Truthy(Some(user)) && Field(user, "role") == Some(Str("driver"))
  }

  /** `json?.error || "Не удалось получить детали стейтмента"`, as the thrown error's text. */
  function ReplyError(json: Value): (r: string)
    ensures Truthy(Field(json, "error")) ==> r == ToJsString(json.fields["error"])
    ensures !Truthy(Field(json, "error")) ==> r == DetailsFailed
  {
    var err := Field(json, "error");
    if Truthy(err) then ToJsString(err.value) else DetailsFailed
  }

  /** `json.statement || null`: the statement when it is truthy, nothing otherwise. */
  function StoredStatement(json: Value): (r: Option<Value>)
    ensures Truthy(Field(json, "statement")) ==> r == Some(json.fields["statement"])
    ensures !Truthy(Field(json, "statement")) ==> r == None
  {
    var statement := Field(json, "statement");
    if Truthy(statement) then Some(statement.value) else None
  }

  /** The specification of `load()`. `user` is what `getUser()` gives. */
  function LoadStep(id: Option<string>, user: Read<Value>, reply: Read<Reply>): (o: LoadOutcome)
    ensures (id.None? || id.value == "") ==> o == Failed(MissingId, false)
    ensures (id.Some? && id.value != "" && user.Value? && !IsDriver(user.value))
            ==> o == Failed(DriverOnly, false)
    ensures (o.Loaded? || o.fetched) ==> id.Some? && id.value != "" && user.Value? && IsDriver(user.value)
    ensures (id.Some? && id.value != "" && user.Threw?) ==> o == Failed(Message(user.message), false)
    ensures (id.Some? && id.value != "" && user.Value? && IsDriver(user.value)) ==> o.Loaded? || o.fetched
    ensures o.Failed? ==> o.message != ""
    ensures o.Loaded? <==> id.Some? && id.value != "" && user.Value? && IsDriver(user.value)
                           && reply.Value? && reply.value.ok && Truthy(Field(reply.value.json, "success"))
    ensures o.Loaded? ==> o.statement == StoredStatement(reply.value.json)
    ensures (id.Some? && id.value != "" && user.Value? && IsDriver(user.value) && reply.Threw?)
            ==> o == Failed(Message(reply.message), true)
    ensures (id.Some? && id.value != "" && user.Value? && IsDriver(user.value) && reply.Value?
             && !(reply.value.ok && Truthy(Field(reply.value.json, "success"))))
            ==> o == Failed(Message(ReplyError(reply.value.json)), true)
  {
    if id.None? || id.value == "" then Failed(MissingId, false)
    else if user.Threw? then Failed(Message(user.message), false)
    else if !IsDriver(user.value) then Failed(DriverOnly, false)
    else if reply.Threw? then Failed(Message(reply.message), true)
    else
      var json := reply.value.json;
      if !reply.value.ok || !Truthy(Field(json, "success")) then
        Failed(Message(ReplyError(json)), true)
      else
        Loaded(StoredStatement(json))
  }

  /** What the screen renders. */
  datatype Screen = Spinner | ErrorView(text: string) | Details(data: Value)

  function ScreenOf(loading: bool, error: Option<string>, data: Option<Value>): (s: Screen)
    ensures loading ==> s == Spinner
    ensures s.Details? ==> !loading && data == Some(s.data)
  {
    if loading then Spinner
    else if (error.Some? && error.value != "") || data.None? then
      ErrorView(if error.Some? && error.value != "" then error.value else NoData)
    else Details(data.value)
  }

  class StatementDetailsScreen {
    var loading: bool
    var error: Option<string>
    var data: Option<Value>
    /** The statement ids requested from the details endpoint. */
    var requests: seq<string>

    constructor ()
      ensures loading && error == None && data == None && requests == []
    {
      loading, error, data, requests := true, None, None, [];
    }

    /** `load()`: reset the error, validate, fetch, then store the statement or the error
        message; `loading` ends false on every path. The data of an earlier load is kept
        when this one fails. */
    method Load(id: Option<string>, user: Read<Value>, reply: Read<Reply>)
      modifies this
      ensures !loading
      ensures var o := LoadStep(id, user, reply);
              && error == (if o.Failed? then Some(o.message) else None)
              && data == (if o.Loaded? then o.statement else old(data))
              && requests == old(requests) + (if o.Loaded? || o.fetched then [id.value] else [])
    {
      error := None;
      var thrown: Option<string> := None;
      if id.None? || id.value == "" {
        thrown := Some(MissingId);
      } else if user.Threw? {
        thrown := Some(user.message);
      } else if !Truthy(Some(user.value)) || Field(user.value, "role") != Some(Str("driver")) {
        thrown := Some(DriverOnly);
      } else {
        requests := requests + [id.value];
        if reply.Threw? {
          thrown := Some(reply.message);
        } else {
          var json := reply.value.json;
          if !reply.value.ok || !Truthy(Field(json, "success")) {
            var err := Field(json, "error");
            thrown := Some(if Truthy(err) then ToJsString(err.value) else DetailsFailed);
          } else {
            var statement := Field(json, "statement");
            data := if Truthy(statement) then Some(statement.value) else None;
          }
        }
      }
      // catch
      if thrown.Some? {
        error := Some(if thrown.value != "" then thrown.value else LoadFailed);
      }
      // finally
      loading := false;
    }
  }

  /** After a load the screen shows the error, the statement, or "Нет данных" when the
      reply carried no statement; never the spinner. */
  lemma ScreenAfterLoad(id: Option<string>, user: Read<Value>, reply: Read<Reply>, before: Option<Value>)
    ensures var o := LoadStep(id, user, reply);
            var s := ScreenOf(false, if o.Failed? then Some(o.message) else None,
                              if o.Loaded? then o.statement else before);
            && (o.Failed? ==> s == ErrorView(o.message))
            && (o.Loaded? && o.statement.Some? ==> s == Details(o.statement.value))
            && (o.Loaded? && o.statement.None? ==> s == ErrorView(NoData))
  {
  }
}

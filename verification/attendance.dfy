/** The attendance service: clock-in records written to Odoo, and three
    cached reads of them whose records always come back with `name` as a
    two-element array. */
module Attendance {
  import opened Wrappers
  import opened Values
  import opened Odoo
  import Text
  import Redis

  const Model := "ssm.attendance"
  const TodayTtl := 900
  const RangeTtl := 1800
  const CreateFailed := "Gagal membuat attendance"

  // ---------------------------------------------------------------------
  // Cache keys.

  /** The key of one employee's attendance on one day; an absent or empty
      date stands for today. */
  function DayKey(employeeId: int, date: Option<string>, today: string): string {
    "attendance:employee:" + Text.IntToString(employeeId) + ":date:"
      + (if date.Some? && date.value != "" then date.value else today)
  }

  function RangeKey(startDate: string, endDate: string): string {
    "attendance:range:" + startDate + ":" + endDate
  }

  function EmployeeRangeKey(employeeId: int, startDate: string, endDate: string): string {
    "attendance:employee:" + Text.IntToString(employeeId) + ":range:" + startDate + ":" + endDate
  }

  /** Behind a common prefix, a colon-free id segment and a colon split a
      key uniquely. */
  lemma AfterId(p: string, sa: string, sb: string, ra: string, rb: string)
    requires Text.ColonFree(sa) && Text.ColonFree(sb)
    ensures p + (sa + ":" + ra) == p + (sb + ":" + rb) ==> sa == sb && ra == rb
  {
    if p + (sa + ":" + ra) == p + (sb + ":" + rb) {
      assert (p + (sa + ":" + ra))[|p|..] == sa + ":" + ra;
      assert (p + (sb + ":" + rb))[|p|..] == sb + ":" + rb;
      Text.ColonSplit(sa, sb, ra, rb);
    }
  }

  /** Two day keys are equal only for the same employee and the same day. */
  lemma DayKeyInjective(a: int, da: string, b: int, db: string, today: string)
    requires da != "" && db != ""
    ensures DayKey(a, Some(da), today) == DayKey(b, Some(db), today) ==> a == b && da == db
  {
    var p := "attendance:employee:";
    var sa, sb := Text.IntToString(a), Text.IntToString(b);
    Text.IntToStringColonFree(a);
    Text.IntToStringColonFree(b);
    assert DayKey(a, Some(da), today) == p + (sa + ":" + ("date:" + da));
    assert DayKey(b, Some(db), today) == p + (sb + ":" + ("date:" + db));
    AfterId(p, sa, sb, "date:" + da, "date:" + db);
    if DayKey(a, Some(da), today) == DayKey(b, Some(db), today) {
      Text.IntToStringInjective(a, b);
      assert da == ("date:" + da)[5..];
      assert db == ("date:" + db)[5..];
    }
  }

  /** A day key is never the key of a date range. */
  lemma DayKeyIsNotRangeKey(a: int, date: Option<string>, today: string, s: string, e: string)
    ensures DayKey(a, date, today) != RangeKey(s, e)
  {
    assert DayKey(a, date, today)[11] == 'e';
    assert RangeKey(s, e)[11] == 'r';
  }

  /** Nor the key of one employee's date range. */
  lemma DayKeyIsNotEmployeeRangeKey(a: int, date: Option<string>, today: string, b: int, s: string, e: string)
    ensures DayKey(a, date, today) != EmployeeRangeKey(b, s, e)
  {
    var d := if date.Some? && date.value != "" then date.value else today;
    var p := "attendance:employee:";
    var sa, sb := Text.IntToString(a), Text.IntToString(b);
    var ra, rb := "date:" + d, "range:" + s + ":" + e;
    Text.IntToStringColonFree(a);
    Text.IntToStringColonFree(b);
    assert DayKey(a, date, today) == p + (sa + ":" + ra);
    assert EmployeeRangeKey(b, s, e) == p + (sb + ":" + rb);
    assert ra[0] != rb[0];
    AfterId(p, sa, sb, ra, rb);
  }

  // ---------------------------------------------------------------------
  // Record normalisation.

  /** A record with `name` as an array: kept as it is when it already is
      one, otherwise copied with `name` replaced by `[String(name),
      "Employee " + name]`.  Reading `name` from `null` throws. */
  function NameAsArray(item: Json): (r: Result<Json>)
    ensures r.Err? <==> item.JNull?
    ensures r.Ok? ==> var n := Get(r.value, "name"); n.Some? && n.value.JArr?
  {
    if item.JNull? then Err(ReadFailure(Some(JNull), "name"))
    else
      var name := Get(item, "name");
      if name.Some? && name.value.JArr? then Ok(item)
      else Ok(JObj(Fields(item)["name" := JArr([JStr(DisplayRead(name)), JStr("Employee " + DisplayRead(name))])]))
  }

  /** `items.map(NameAsArray)`, which stops at the first record that throws. */
  function NamesAsArrays(items: seq<Json>): (r: Result<seq<Json>>)
    ensures r.Err? <==> exists i :: 0 <= i < |items| && items[i].JNull?
    ensures r.Ok? ==> |r.value| == |items|
    ensures r.Ok? ==> forall i :: 0 <= i < |items| ==> r.value[i] == NameAsArray(items[i]).value
  {
    if items == [] then Ok([])
    else
      match NameAsArray(items[0])
      case Err(f) => Err(f)
      case Ok(first) =>
        match NamesAsArrays(items[1..])
        case Err(f) =>
          assert forall i :: 0 < i < |items| ==> items[1..][i - 1] == items[i];
          Err(f)
        case Ok(rest) =>
          assert forall i :: 1 <= i < |items| ==> items[i] == items[1..][i - 1];
          Ok([first] + rest)
  }

  /** `ensureNameIsArray`: a list of records or a single record. */
  function EnsureNameIsArray(data: Json): Result<Json> {
    if data.JArr? then
      match NamesAsArrays(data.items)
      case Ok(items) => Ok(JArr(items))
      case Err(f) => Err(f)
    else NameAsArray(data)
  }

  /** A record whose `name` is already an array passes unchanged; any other
      record gets the two-element name and keeps its other fields. */
  lemma NameAsArrayKeeps(item: Json)
    requires !item.JNull?
    ensures var n := Get(item, "name");
            n.Some? && n.value.JArr? ==> NameAsArray(item) == Ok(item)
    ensures forall k :: k in Fields(item) && k != "name" ==>
              (k in Fields(NameAsArray(item).value) && Fields(NameAsArray(item).value)[k] == Fields(item)[k])
  {
  }

  /** Normalising twice is normalising once. */
  lemma NameAsArrayIdempotent(item: Json)
    requires NameAsArray(item).Ok?
    ensures NameAsArray(NameAsArray(item).value) == NameAsArray(item)
  {
  }

  /** Normalising what was already normalised changes nothing. */
  lemma {:induction false} EnsureNameIsArrayIdempotent(data: Json)
    requires EnsureNameIsArray(data).Ok?
    ensures EnsureNameIsArray(EnsureNameIsArray(data).value) == EnsureNameIsArray(data)
  {
    if data.JArr? {
      var out := NamesAsArrays(data.items).value;
      forall i | 0 <= i < |out| ensures NameAsArray(out[i]) == Ok(out[i]) {
        NameAsArrayIdempotent(data.items[i]);
      }
      NamesOfNormalised(out);
    } else {
      NameAsArrayIdempotent(data);
    }
  }

  lemma {:induction false} NamesOfNormalised(items: seq<Json>)
    requires forall i :: 0 <= i < |items| ==> NameAsArray(items[i]) == Ok(items[i])
    ensures NamesAsArrays(items) == Ok(items)
  {
    if items != [] {
      NamesOfNormalised(items[1..]);
      assert [items[0]] + items[1..] == items;
    }
  }

  // ---------------------------------------------------------------------
  // Image data and day names.

  const Marker := "base64,"

  /** The image text after its `data:...;base64,` prefix: what lies between
      the first `base64,` and the next one, or the input when it has none. */
  function CleanBase64(s: string): (r: string)
    ensures (r == s) <==> Text.IndexOf(s, Marker, 0).None?
    ensures forall k :: !Text.OccursAt(r, Marker, k)
    ensures Text.IndexOf(s, Marker, 0).Some? ==>
              var i := Text.IndexOf(s, Marker, 0).value;
              i + |Marker| + |r| <= |s| && s[i + |Marker|..i + |Marker| + |r|] == r
    ensures Text.IndexOf(s, Marker, 0).Some? ==>
              var i := Text.IndexOf(s, Marker, 0).value;
              i + |Marker| + |r| == |s| || Text.OccursAt(s, Marker, i + |Marker| + |r|)
  {
    match Text.IndexOf(s, Marker, 0)
    case None => s
    case Some(i) =>
      var rest := s[i + |Marker|..];
      match Text.IndexOf(rest, Marker, 0)
      case None => rest
      case Some(j) =>
        Text.NoneBeforeFirst(rest, Marker, j);
        Text.OccursInSuffix(s, Marker, i + |Marker|, j);
        assert s[i + |Marker|..i + |Marker| + j] == rest[..j];
        rest[..j]
  }

  /** The Indonesian name of an English day name; any other text as it is. */
  function TranslateDay(day: string): string {
    match day
    case "Sunday" => "Minggu"
    case "Monday" => "Senin"
    case "Tuesday" => "Selasa"
    case "Wednesday" => "Rabu"
    case "Thursday" => "Kamis"
    case "Friday" => "Jumat"
    case "Saturday" => "Sabtu"
    case _ => day
  }

  predicate IsEnglishDay(day: string) {
    day in ["Sunday", "Monday", "Tuesday", "Wednesday", "Thursday", "Friday", "Saturday"]
  }

  /** The English day an Indonesian day name translates. */
  function EnglishDay(hari: string): Option<string> {
    match hari
    case "Minggu" => Some("Sunday")
    case "Senin" => Some("Monday")
    case "Selasa" => Some("Tuesday")
    case "Rabu" => Some("Wednesday")
    case "Kamis" => Some("Thursday")
    case "Jumat" => Some("Friday")
    case "Sabtu" => Some("Saturday")
    case _ => None
  }

  /** The seven day names are translated one to one, and nothing else is
      touched. */
  lemma TranslateDayRoundTrip(day: string)
    ensures IsEnglishDay(day) ==> EnglishDay(TranslateDay(day)) == Some(day)
    ensures !IsEnglishDay(day) ==> TranslateDay(day) == day
  {
  }

  // ---------------------------------------------------------------------
  // The service.

  /** The parts of `tanggal_absen` that moment-timezone derives: the UTC
      time stamp, the English weekday name, the time of day as hours and
      the date without time. */
  datatype Moment = Moment(utc: string, weekday: string, hours: Json, dateOnly: string)

  datatype AttendanceInput = AttendanceInput(employeeId: int, nik: string, punchingType: string,
                                             tanggalAbsen: string, image: string)

  function CreateCall(input: AttendanceInput, m: Moment): Call {
    Create(Model, map[
      "name" := JNum(input.employeeId), "nik" := JStr(input.nik), "hari" := JStr(TranslateDay(m.weekday)),
      "tanggal_absen" := JStr(m.utc), "time" := m.hours, "tangal" := JStr(m.dateOnly),
      "punching_type" := JStr(input.punchingType), "attendace_image" := JStr(CleanBase64(input.image))])
  }

  function TodayCall(employeeId: int, today: string): Call {
    SearchRead(Model, [Term("name.id", "=", JNum(employeeId)), Term("tangal", "=", JStr(today))], None)
  }

  function RangeCall(startDate: string, endDate: string): Call {
    SearchRead(Model, [Term("tangal", ">=", JStr(startDate)), Term("tangal", "<=", JStr(endDate))], None)
  }

  function EmployeeRangeCall(employeeId: int, startDate: string, endDate: string): Call {
    SearchRead(Model, [Term("name.id", "=", JNum(employeeId)), Term("tangal", ">=", JStr(startDate)),
                       Term("tangal", "<=", JStr(endDate))], None)
  }

  /** What a search stores: `result || []`.  A failed search has no result,
      so its error is stored as an empty list. */
  function SearchRows(env: Env, call: Call): Json {
    Or(env.odoo(call).result, JArr([]))
  }

  class AttendanceService {
    const redis: Redis.RedisService<Json>

    constructor (redis: Redis.RedisService<Json>)
      ensures this.redis == redis
    {
      this.redis := redis;
    }

    /** Creates the record; only once Odoo returned its id is today's entry
        of that employee dropped from the cache. */
    method CreateAttendance(env: Env, input: AttendanceInput, m: Moment) returns (r: Result<Json>, calls: seq<Call>)
      modifies redis`store
      ensures env.uid == 0 ==> r == Err(Failure(AuthFailed)) && calls == [] && redis.store == old(redis.store)
      ensures env.uid != 0 ==> calls == [CreateCall(input, m)]
      ensures env.uid != 0 && !Present(env.odoo(CreateCall(input, m)).result) ==>
                r == Err(Failure(CreateFailed)) && redis.store == old(redis.store)
      ensures env.uid != 0 && Present(env.odoo(CreateCall(input, m)).result) ==>
                && r == Ok(env.odoo(CreateCall(input, m)).result.value)
                && redis.store == old(redis.AfterDel({DayKey(input.employeeId, None, env.today)}))
    {
      if env.uid == 0 {
        return Err(Failure(AuthFailed)), [];
      }
      var call := CreateCall(input, m);
      calls := [call];
      var result := env.odoo(call).result;
      if !Present(result) {
        return Err(Failure(CreateFailed)), calls;
      }
      redis.Del(Redis.One(DayKey(input.employeeId, None, env.today)));
      r := Ok(result.value);
    }

    /** The read-through the three getters share: a hit is normalised and
        returned; a miss searches Odoo, stores `result || []` for `ttl`
        seconds and returns it normalised. */
    method ReadNormalized(env: Env, key: string, call: Call, ttl: int) returns (r: Result<Json>, calls: seq<Call>)
      modifies redis`store
      ensures var hit := old(redis.Cached(key, env.now));
              && (hit.Some? ==> r == EnsureNameIsArray(hit.value) && calls == [] && redis.store == old(redis.store))
              && (hit.None? && env.uid == 0 ==>
                    r == Err(Failure(AuthFailed)) && calls == [] && redis.store == old(redis.store))
              && (hit.None? && env.uid != 0 ==>
                    && r == EnsureNameIsArray(SearchRows(env, call)) && calls == [call]
                    && redis.store == old(redis.AfterSet(key, SearchRows(env, call), Some(ttl), env.now)))
    {
      var cached := redis.Get(key, env.now);
      if cached.Some? {
        return EnsureNameIsArray(cached.value), [];
      }
      if env.uid == 0 {
        return Err(Failure(AuthFailed)), [];
      }
      var rows := SearchRows(env, call);
      calls := [call];
      redis.Set(key, rows, Some(ttl), env.now);
      r := EnsureNameIsArray(rows);
    }

    method GetAttendanceByEmployeeIdToday(env: Env, employeeId: int) returns (r: Result<Json>, calls: seq<Call>)
      modifies redis`store
      ensures var key := DayKey(employeeId, None, env.today);
              var hit := old(redis.Cached(key, env.now));
              var call := TodayCall(employeeId, env.today);
              && (hit.Some? ==> r == EnsureNameIsArray(hit.value) && calls == [] && redis.store == old(redis.store))
              && (hit.None? && env.uid == 0 ==>
                    r == Err(Failure(AuthFailed)) && calls == [] && redis.store == old(redis.store))
              && (hit.None? && env.uid != 0 ==>
                    && r == EnsureNameIsArray(SearchRows(env, call)) && calls == [call]
                    && redis.store == old(redis.AfterSet(key, SearchRows(env, call), Some(TodayTtl), env.now)))
    {
      r, calls := ReadNormalized(env, DayKey(employeeId, None, env.today), TodayCall(employeeId, env.today), TodayTtl);
    }

    method GetAttendanceByDateRange(env: Env, startDate: string, endDate: string) returns (r: Result<Json>, calls: seq<Call>)
      modifies redis`store
      ensures var key := RangeKey(startDate, endDate);
              var hit := old(redis.Cached(key, env.now));
              var call := RangeCall(startDate, endDate);
              && (hit.Some? ==> r == EnsureNameIsArray(hit.value) && calls == [] && redis.store == old(redis.store))
              && (hit.None? && env.uid == 0 ==>
                    r == Err(Failure(AuthFailed)) && calls == [] && redis.store == old(redis.store))
              && (hit.None? && env.uid != 0 ==>
                    && r == EnsureNameIsArray(SearchRows(env, call)) && calls == [call]
                    && redis.store == old(redis.AfterSet(key, SearchRows(env, call), Some(RangeTtl), env.now)))
    {
      r, calls := ReadNormalized(env, RangeKey(startDate, endDate), RangeCall(startDate, endDate), RangeTtl);
    }

    method GetAttendanceByEmployeeIdAndDateRange(env: Env, employeeId: int, startDate: string, endDate: string)
      returns (r: Result<Json>, calls: seq<Call>)
      modifies redis`store
      ensures var key := EmployeeRangeKey(employeeId, startDate, endDate);
              var hit := old(redis.Cached(key, env.now));
              var call := EmployeeRangeCall(employeeId, startDate, endDate);
              && (hit.Some? ==> r == EnsureNameIsArray(hit.value) && calls == [] && redis.store == old(redis.store))
              && (hit.None? && env.uid == 0 ==>
                    r == Err(Failure(AuthFailed)) && calls == [] && redis.store == old(redis.store))
              && (hit.None? && env.uid != 0 ==>
                    && r == EnsureNameIsArray(SearchRows(env, call)) && calls == [call]
                    && redis.store == old(redis.AfterSet(key, SearchRows(env, call), Some(RangeTtl), env.now)))
    {
      r, calls := ReadNormalized(env, EmployeeRangeKey(employeeId, startDate, endDate),
                                 EmployeeRangeCall(employeeId, startDate, endDate), RangeTtl);
    }
  }

  /** Recording attendance drops only that employee's entry for today:
      every range entry, and every other employee's or day's entry, is
      left as it was. */
  lemma CreateKeepsOtherEntries(store: Redis.Store<Json>, employeeId: int, today: string, key: string)
    requires today != ""
    requires key in store
    requires (exists s, e :: key == RangeKey(s, e))
          || (exists b, s, e :: key == EmployeeRangeKey(b, s, e))
          || (exists b, d :: d != "" && key == DayKey(b, Some(d), today) && (b, d) != (employeeId, today))
    ensures key in Redis.Remove(store, {DayKey(employeeId, None, today)})
    ensures Redis.Remove(store, {DayKey(employeeId, None, today)})[key] == store[key]
  {
    var dropped := DayKey(employeeId, None, today);
    assert dropped == DayKey(employeeId, Some(today), today);
    if exists s, e :: key == RangeKey(s, e) {
      var s, e :| key == RangeKey(s, e);
      DayKeyIsNotRangeKey(employeeId, None, today, s, e);
    } else if exists b, s, e :: key == EmployeeRangeKey(b, s, e) {
      var b, s, e :| key == EmployeeRangeKey(b, s, e);
      DayKeyIsNotEmployeeRangeKey(employeeId, None, today, b, s, e);
    } else {
      var b, d :| d != "" && key == DayKey(b, Some(d), today) && (b, d) != (employeeId, today);
      DayKeyInjective(b, d, employeeId, today, today);
    }
    Redis.RemoveExactly(store, {dropped}, key);
  }
}

/** The leave service: leave types and leave requests read from Odoo's
    `hr.leave` through the cache, new requests created and approved or
    refused there, and the cached lists dropped after each change. */
module Leave {
  import opened Wrappers
  import opened Values
  import opened Odoo
  import Text
  import Redis

  const Ttl := 1800
  const AllKey := "leaves:all"
  const TypesKey := "leave_types:all"
  const LeaveModel := "hr.leave"
  const TypeModel := "hr.leave.type"

  const CreatePrefix := "Gagal membuat permintaan cuti: "
  const CreateFailed := "Gagal membuat permintaan cuti"
  const NoNewId := "Tidak dapat memperoleh ID permintaan cuti yang baru dibuat"
  const ApprovePrefix := "Gagal menyetujui permintaan cuti: "
  const ApproveFailed := "Error approving leave request"
  const RefusePrefix := "Gagal menolak permintaan cuti: "
  const RefuseFailed := "Error refusing leave request"

  /** Milliseconds in a day. */
  const DayMs := 1000 * 60 * 60 * 24

  // ---------------------------------------------------------------------
  // Cache keys.

  /** The list of one employee's leaves, keyed by the text of the id. */
  function EmployeeKey(idText: string): string {
    "leaves:employee:" + idText
  }

  /** The key `getLeaves` reads: a truthy employee id selects that
      employee's list, an absent or zero one the list of all leaves. */
  function ListKey(employeeId: Option<int>): string {
    if employeeId.Some? && employeeId.value != 0 then EmployeeKey(Text.IntToString(employeeId.value))
    else AllKey
  }

  /** The key of one leave request's record. */
  function LeaveKey(leaveId: int): string {
    "leave:" + Text.IntToString(leaveId)
  }

  /** Different employees' lists have different keys, and none of them is
      the list of all leaves. */
  lemma ListKeyInjective(a: Option<int>, b: Option<int>)
    ensures ListKey(a) == ListKey(b) ==>
              (a.Some? && a.value != 0) == (b.Some? && b.value != 0)
              && (a.Some? && a.value != 0 ==> a == b)
  {
    var p := "leaves:employee:";
    if a.Some? && a.value != 0 {
      assert ListKey(a)[7] == 'e';
    }
    if b.Some? && b.value != 0 {
      assert ListKey(b)[7] == 'e';
    }
    if a.Some? && a.value != 0 && b.Some? && b.value != 0 && ListKey(a) == ListKey(b) {
      var sa, sb := Text.IntToString(a.value), Text.IntToString(b.value);
      assert (p + sa)[|p|..] == sa && (p + sb)[|p|..] == sb;
      Text.IntToStringInjective(a.value, b.value);
    }
  }

  /** A leave record's key is never one of the list keys, so dropping a list
      never drops a record. */
  lemma LeaveKeyIsNoListKey(leaveId: int, idText: string)
    ensures LeaveKey(leaveId) != AllKey
    ensures LeaveKey(leaveId) != TypesKey
    ensures LeaveKey(leaveId) != EmployeeKey(idText)
  {
    assert LeaveKey(leaveId)[5] == ':';
    assert AllKey[5] == 's' && TypesKey[5] == '_' && EmployeeKey(idText)[5] == 's';
  }

  // ---------------------------------------------------------------------
  // Enrichment of the records Odoo returns.

  /** The properties that enrichment writes. */
  const LinkFields := {"employee_id", "holiday_status_id", "employee_name", "leave_type_name"}

  /** `link ? link[i] : null` on a many-to-one value `[id, name]`. */
  function Pick(link: Option<Json>, i: nat): Option<Json> {
    if Present(link) then At(link.value, i) else Some(JNull)
  }

  /** Whether `id` and `name` are what a many-to-one `link` splits into:
      the two halves of an `[id, name]` pair, or two nulls for an empty link. */
  predicate SplitAs(link: Option<Json>, id: Option<Json>, name: Option<Json>) {
    && (Present(link) && link.value.JArr? && |link.value.items| == 2 ==>
          id == Some(link.value.items[0]) && name == Some(link.value.items[1]))
    && (!Present(link) ==> id == Some(JNull) && name == Some(JNull))
  }

  /** A record with its employee and leave type split into ids and names.
      Reading the links of `null` throws. */
  function Enrich(leave: Json): (r: Result<Json>)
    ensures r.Err? <==> leave.JNull?
    ensures r.Err? ==> r.fault == ReadFailure(Some(JNull), "employee_id")
    ensures r.Ok? ==> r.value.JObj? && forall k :: k !in LinkFields ==> Get(r.value, k) == Get(leave, k)
  {
    if leave.JNull? then Err(ReadFailure(Some(JNull), "employee_id"))
    else
      var employee := Get(leave, "employee_id");
      var status := Get(leave, "holiday_status_id");
      Ok(JObj(Assign(Assign(Assign(Assign(Fields(leave),
                "employee_name", Pick(employee, 1)),
                "leave_type_name", Pick(status, 1)),
                "employee_id", Pick(employee, 0)),
                "holiday_status_id", Pick(status, 0))))
  }

  /** Each link of an enriched record is split into its id and its name. */
  lemma EnrichSplitsLinks(leave: Json)
    requires !leave.JNull?
    ensures var r := Enrich(leave).value;
            && SplitAs(Get(leave, "employee_id"), Get(r, "employee_id"), Get(r, "employee_name"))
            && SplitAs(Get(leave, "holiday_status_id"), Get(r, "holiday_status_id"), Get(r, "leave_type_name"))
  {
  }

  /** `leaves.map(Enrich)`, which stops at the first record that throws. */
  function EnrichAll(items: seq<Json>): (r: Result<seq<Json>>)
    ensures r.Err? <==> exists i :: 0 <= i < |items| && items[i].JNull?
    ensures r.Err? ==> r.fault == ReadFailure(Some(JNull), "employee_id")
    ensures r.Ok? ==> |r.value| == |items|
    ensures r.Ok? ==> forall i :: 0 <= i < |items| ==> Enrich(items[i]) == Ok(r.value[i])
  {
    if items == [] then Ok([])
    else
      match Enrich(items[0])
      case Err(f) => Err(f)
      case Ok(first) =>
        match EnrichAll(items[1..])
        case Err(f) =>
          assert forall i :: 0 < i < |items| ==> items[1..][i - 1] == items[i];
          Err(f)
        case Ok(rest) =>
          assert forall i :: 1 <= i < |items| ==> items[i] == items[1..][i - 1];
          Ok([first] + rest)
  }

  /** The list `getLeaves` returns for a search result: `map` on `undefined`
      or `null` throws, and so does a value that is not an array. */
  function ListLeaves(result: Option<Json>): (r: Result<Json>)
    ensures Nullish(result) ==> r == Err(ReadFailure(result, "map"))
    ensures r.Ok? <==> result.Some? && result.value.JArr? && forall i :: 0 <= i < |result.value.items| ==> !result.value.items[i].JNull?
    ensures !Nullish(result) && !result.value.JArr? ==> r == Err(Failure("leaves.map is not a function"))
    ensures r.Ok? ==> r.value.JArr? && EnrichAll(result.value.items) == Ok(r.value.items)
    ensures r.Ok? ==> |r.value.items| == |result.value.items|
    ensures r.Ok? ==> forall i :: 0 <= i < |result.value.items| ==> Enrich(result.value.items[i]) == Ok(r.value.items[i])
  {
    if Nullish(result) then Err(ReadFailure(result, "map"))
    else if !result.value.JArr? then Err(Failure("leaves.map is not a function"))
    else
      match EnrichAll(result.value.items)
      case Ok(items) => Ok(JArr(items))
      case Err(f) => Err(f)
  }

  // ---------------------------------------------------------------------
  // Creating a request.

  /** The arguments of `createLeaveRequest`. */
  datatype Request = Request(employeeId: int, holidayStatusId: int, dateFrom: string, dateTo: string,
                             notes: string, supportImage: string)

  /** The stored start and end: 01:00 and 10:00 UTC, that is 08:00 and
      17:00 in Jakarta. */
  function StartTime(date: string): string { date + " 01:00:00" }
  function EndTime(date: string): string { date + " 10:00:00" }

  /** `floor((end - start) / day) + 1` over the two dates as milliseconds
      since the epoch; an invalid date makes it `NaN`, which is sent as
      `null`. */
  function DayCount(start: Option<int>, end: Option<int>): (r: Json)
    ensures start.None? || end.None? ==> r == JNull
    ensures start.Some? && end.Some? ==>
              r.JNum? && (r.n - 1) * DayMs <= end.value - start.value < r.n * DayMs
  {
    if start.None? || end.None? then JNull
    else JNum((end.value - start.value) / DayMs + 1)
  }

  /** A request for one day, or for consecutive days given at the same time
      of day, counts every day from start to end inclusive. */
  lemma DayCountWholeDays(start: int, days: nat)
    ensures DayCount(Some(start), Some(start + days * DayMs)) == JNum(days + 1)
  {
  }

  /** The record sent to `create`. */
  function CreateValues(req: Request, days: Json): map<string, Json> {
    map["employee_id" := JNum(req.employeeId),
        "holiday_status_id" := JNum(req.holidayStatusId),
        "request_date_from" := JStr(req.dateFrom),
        "request_date_to" := JStr(req.dateTo),
        "date_from" := JStr(StartTime(req.dateFrom)),
        "date_to" := JStr(EndTime(req.dateTo)),
        "number_of_days" := days,
        "notes" := JStr(req.notes),
        "support_image" := JStr(req.supportImage)]
  }

  function CreateCall(req: Request, days: Json): Call {
    Create(LeaveModel, CreateValues(req, days))
  }

  /** The `write` that sets the dates and the day count again on the new
      record. */
  function FixCall(newId: Json, req: Request, days: Json): Call {
    Write(LeaveModel, JArr([newId]),
          map["request_date_from" := JStr(req.dateFrom),
              "request_date_to" := JStr(req.dateTo),
              "date_from" := JStr(StartTime(req.dateFrom)),
              "date_to" := JStr(EndTime(req.dateTo)),
              "number_of_days" := days])
  }

  /** `read` of one record. */
  function DetailCall(id: Json): Call {
    Read(LeaveModel, id)
  }

  /** `link?.[i]`: `undefined` when the link is `null` or `undefined`. */
  function Chain(link: Option<Json>, i: nat): Option<Json> {
    if Nullish(link) then None else At(link.value, i)
  }

  /** The record returned when Odoo did not return the new record: what was
      sent, with the new id and the state `confirm`. */
  function Fallback(newId: Json, req: Request, days: Json): Json {
    JObj(map["id" := newId,
             "employee_id" := JNum(req.employeeId),
             "holiday_status_id" := JNum(req.holidayStatusId),
             "request_date_from" := JStr(req.dateFrom),
             "request_date_to" := JStr(req.dateTo),
             "date_from" := JStr(StartTime(req.dateFrom)),
             "date_to" := JStr(EndTime(req.dateTo)),
             "number_of_days" := days,
             "notes" := JStr(req.notes),
             "state" := JStr("confirm")])
  }

  /** The record Odoo returned, with names split out and the ids falling
      back to the ones requested. */
  function Merge(created: Json, req: Request): Json {
    var employee := Get(created, "employee_id");
    var status := Get(created, "holiday_status_id");
    JObj(Fields(created)["employee_name" := Or(Chain(employee, 1), JNull)]
                        ["leave_type_name" := Or(Chain(status, 1), JNull)]
                        ["employee_id" := Or(Chain(employee, 0), JNum(req.employeeId))]
                        ["holiday_status_id" := Or(Chain(status, 0), JNum(req.holidayStatusId))])
  }

  /** What `createLeaveRequest` returns once the record exists: the first
      record of the `read`, or the fallback when there is none. */
  function Created(detail: Option<Json>, newId: Json, req: Request, days: Json): Json {
    var first := if Nullish(detail) then None else At(detail.value, 0);
    if Present(first) then Merge(first.value, req) else Fallback(newId, req, days)
  }

  /** The fallback record repeats every field that was sent except the
      image. */
  lemma FallbackEchoesRequest(newId: Json, req: Request, days: Json, k: string)
    requires k in CreateValues(req, days) && k != "support_image"
    ensures Get(Fallback(newId, req, days), k) == Some(CreateValues(req, days)[k])
  {
  }

  /** A record whose links Odoo left empty keeps the requested employee and
      leave type, with null names; a linked one takes the ids and names of
      its links. */
  lemma MergeIds(created: Json, req: Request)
    ensures var r := Merge(created, req);
            && (!Present(Get(created, "employee_id")) ==>
                  Get(r, "employee_id") == Some(JNum(req.employeeId)) && Get(r, "employee_name") == Some(JNull))
            && (!Present(Get(created, "holiday_status_id")) ==>
                  Get(r, "holiday_status_id") == Some(JNum(req.holidayStatusId)) && Get(r, "leave_type_name") == Some(JNull))
    ensures forall id, name :: Get(created, "employee_id") == Some(JArr([id, name])) && Truthy(id) && Truthy(name) ==>
              Get(Merge(created, req), "employee_id") == Some(id) && Get(Merge(created, req), "employee_name") == Some(name)
  {
  }

  // ---------------------------------------------------------------------
  // Reads.

  /** The search behind `getLeaves`: all leaves, or one employee's. */
  function ListCall(employeeId: Option<int>): Call {
    SearchRead(LeaveModel,
               if employeeId.Some? && employeeId.value != 0 then [Term("employee_id", "=", JNum(employeeId.value))] else [],
               None)
  }

  const TypesCall := SearchRead(TypeModel, [], None)

  /** `!result || result.length === 0`. */
  predicate NotFound(result: Option<Json>) {
    !Present(result) || Length(result.value) == Some(JNum(0))
  }

  function NotFoundText(leaveId: int): string {
    "Cuti dengan ID " + Text.IntToString(leaveId) + " tidak ditemukan"
  }

  /** What `getLeaveById` settles to on a cache miss. */
  function FetchLeave(env: Env, leaveId: int): (r: Result<Json>)
    ensures env.uid == 0 ==> r == Err(Failure(AuthFailed))
    ensures env.uid != 0 && NotFound(env.odoo(DetailCall(JNum(leaveId))).result) ==>
              r == Err(Failure(NotFoundText(leaveId)))
    ensures r.Ok? ==> var result := env.odoo(DetailCall(JNum(leaveId))).result;
                      && env.uid != 0 && !NotFound(result)
                      && At(result.value, 0).Some? && Enrich(At(result.value, 0).value) == r
  {
    if env.uid == 0 then Err(Failure(AuthFailed))
    else
      var result := env.odoo(DetailCall(JNum(leaveId))).result;
      if NotFound(result) then Err(Failure(NotFoundText(leaveId)))
      else
        var first := At(result.value, 0);
        if first.None? then Err(ReadFailure(None, "employee_id")) else Enrich(first.value)
  }

  function FetchCalls(env: Env, leaveId: int): seq<Call> {
    if env.uid == 0 then [] else [DetailCall(JNum(leaveId))]
  }

  // ---------------------------------------------------------------------
  // Approving and refusing.

  function ActionCall(action: string, leaveId: int): Call {
    Action(LeaveModel, action, JArr([JNum(leaveId)]))
  }

  /** Whether the record in hand names an employee whose list is dropped. */
  predicate NamesEmployee(detail: Result<Json>) {
    detail.Ok? && Truthy(detail.value) && Present(Get(detail.value, "employee_id"))
  }

  function EmployeeOf(detail: Result<Json>): string
    requires NamesEmployee(detail)
  {
    Display(Get(detail.value, "employee_id").value)
  }

  /** The keyspace after a successful status change on a live server: the
      list of all leaves dropped, the record stored on a miss that found
      it, and then the named employee's list dropped. */
  function AfterStatusChange(store: Redis.Store<Json>, leaveId: int, hit: Option<Json>,
                             detail: Result<Json>, now: int): Redis.Store<Json>
  {
    var cleared := Redis.Remove(store, {AllKey});
    var stored := if hit.None? && detail.Ok? then Redis.Put(cleared, LeaveKey(leaveId), detail.value, Some(Ttl), now)
                  else cleared;
    if NamesEmployee(detail) then Redis.Remove(stored, {EmployeeKey(EmployeeOf(detail))}) else stored
  }

  /** A status change never drops the leave's own record: an entry cached
      before the change is still there, unchanged, afterwards. */
  lemma StatusChangeKeepsRecord(store: Redis.Store<Json>, leaveId: int, detail: Result<Json>, now: int)
    requires LeaveKey(leaveId) in store
    ensures var after := AfterStatusChange(store, leaveId, Some(store[LeaveKey(leaveId)].value), detail, now);
            LeaveKey(leaveId) in after && after[LeaveKey(leaveId)] == store[LeaveKey(leaveId)]
  {
    var key := LeaveKey(leaveId);
    LeaveKeyIsNoListKey(leaveId, if NamesEmployee(detail) then EmployeeOf(detail) else "");
    var cleared := Redis.Remove(store, {AllKey});
    Redis.RemoveExactly(store, {AllKey}, key);
    if NamesEmployee(detail) {
      Redis.RemoveExactly(cleared, {EmployeeKey(EmployeeOf(detail))}, key);
    }
  }

  /** After a status change neither the list of all leaves nor the list of
      the employee the record names is cached; for a record enriched from
      Odoo, that is the very key `getLeaves` reads for the employee. */
  lemma StatusChangeClearsLists(store: Redis.Store<Json>, leaveId: int, hit: Option<Json>,
                                detail: Result<Json>, now: int, employeeId: int)
    requires detail.Ok? && Get(detail.value, "employee_id") == Some(JNum(employeeId)) && employeeId != 0
    ensures var after := AfterStatusChange(store, leaveId, hit, detail, now);
            ListKey(None) !in after && ListKey(Some(employeeId)) !in after
  {
    var cleared := Redis.Remove(store, {AllKey});
    var stored := if hit.None? && detail.Ok? then Redis.Put(cleared, LeaveKey(leaveId), detail.value, Some(Ttl), now)
                  else cleared;
    Redis.RemoveExactly(store, {AllKey}, AllKey);
    LeaveKeyIsNoListKey(leaveId, Text.IntToString(employeeId));
    Redis.PutOnlyTouchesKey(cleared, LeaveKey(leaveId), detail.value, Some(Ttl), now, AllKey);
    assert EmployeeOf(detail) == Text.IntToString(employeeId);
    Redis.RemoveExactly(stored, {EmployeeKey(EmployeeOf(detail))}, AllKey);
    Redis.RemoveExactly(stored, {EmployeeKey(EmployeeOf(detail))}, ListKey(Some(employeeId)));
  }

  /** Dropping the list of all leaves leaves the record's entry as it was. */
  lemma ClearingKeepsRecord(store: Redis.Store<Json>, leaveId: int, now: int)
    ensures Redis.Lookup(Redis.Remove(store, {AllKey}), LeaveKey(leaveId), now) == Redis.Lookup(store, LeaveKey(leaveId), now)
  {
    LeaveKeyIsNoListKey(leaveId, "");
    Redis.RemoveExactly(store, {AllKey}, LeaveKey(leaveId));
  }

  /** After a status change whose lookup found the record, the record is
      cached, so the second lookup answers with it; after one whose lookup
      failed, nothing but the list of all leaves has changed. */
  lemma RecordAfterStatusChange(store: Redis.Store<Json>, leaveId: int, hit: Option<Json>,
                                detail: Result<Json>, now: int)
    requires hit == Redis.Lookup(store, LeaveKey(leaveId), now)
    requires hit.Some? ==> detail == Ok(hit.value)
    ensures detail.Ok? ==>
              Redis.Lookup(AfterStatusChange(store, leaveId, hit, detail, now), LeaveKey(leaveId), now) == Some(detail.value)
    ensures detail.Err? ==> AfterStatusChange(store, leaveId, hit, detail, now) == Redis.Remove(store, {AllKey})
  {
    var key := LeaveKey(leaveId);
    var cleared := Redis.Remove(store, {AllKey});
    ClearingKeepsRecord(store, leaveId, now);
    if detail.Ok? {
      var stored := if hit.None? then Redis.Put(cleared, key, detail.value, Some(Ttl), now) else cleared;
      if hit.None? {
        Redis.PutWithTtl(cleared, key, detail.value, Ttl, now, now);
      }
      assert Redis.Lookup(stored, key, now) == Some(detail.value);
      if NamesEmployee(detail) {
        LeaveKeyIsNoListKey(leaveId, EmployeeOf(detail));
        Redis.RemoveExactly(stored, {EmployeeKey(EmployeeOf(detail))}, key);
      }
    }
  }

  // ---------------------------------------------------------------------
  // The service.

  class LeaveService {
    const redis: Redis.RedisService<Json>

    constructor (redis: Redis.RedisService<Json>)
      ensures this.redis == redis
    {
      this.redis := redis;
    }

    /** The leave types, read through the cache.  A `null` result is cached
        before reading its length throws. */
    method GetLeaveTypes(env: Env) returns (r: Result<Json>, calls: seq<Call>)
      modifies redis`store
      ensures var hit := old(redis.Cached(TypesKey, env.now));
              var result := env.odoo(TypesCall).result;
              && (hit.Some? ==> r == Ok(hit.value) && calls == [] && redis.store == old(redis.store))
              && (hit.None? && env.uid == 0 ==>
                    r == Err(Failure(AuthFailed)) && calls == [] && redis.store == old(redis.store))
              && (hit.None? && env.uid != 0 ==> calls == [TypesCall])
              && (hit.None? && env.uid != 0 && result.None? ==>
                    r == Err(ReadFailure(None, "length")) && redis.store == old(redis.store))
              && (hit.None? && env.uid != 0 && result.Some? ==>
                    && r == (if result.value.JNull? then Err(ReadFailure(result, "length")) else Ok(result.value))
                    && redis.store == old(redis.AfterSet(TypesKey, result.value, Some(Ttl), env.now)))
    {
      var cached := redis.Get(TypesKey, env.now);
      if cached.Some? {
        return Ok(cached.value), [];
      }
      if env.uid == 0 {
        return Err(Failure(AuthFailed)), [];
      }
      calls := [TypesCall];
      var result := env.odoo(TypesCall).result;
      if result.None? {
        return Err(ReadFailure(None, "length")), calls;
      }
      redis.Set(TypesKey, result.value, Some(Ttl), env.now);
      if result.value.JNull? {
        return Err(ReadFailure(result, "length")), calls;
      }
      r := Ok(result.value);
    }

    /** The leaves of one employee or of everyone, enriched and read through
        the cache; a result that cannot be enriched is not cached. */
    method GetLeaves(env: Env, employeeId: Option<int>) returns (r: Result<Json>, calls: seq<Call>)
      modifies redis`store
      ensures var key := ListKey(employeeId);
              var hit := old(redis.Cached(key, env.now));
              var listed := ListLeaves(env.odoo(ListCall(employeeId)).result);
              && (hit.Some? ==> r == Ok(hit.value) && calls == [] && redis.store == old(redis.store))
              && (hit.None? && env.uid == 0 ==>
                    r == Err(Failure(AuthFailed)) && calls == [] && redis.store == old(redis.store))
              && (hit.None? && env.uid != 0 ==> r == listed && calls == [ListCall(employeeId)])
              && (hit.None? && env.uid != 0 && listed.Err? ==> redis.store == old(redis.store))
              && (hit.None? && env.uid != 0 && listed.Ok? ==>
                    redis.store == old(redis.AfterSet(key, listed.value, Some(Ttl), env.now)))
    {
      var key := ListKey(employeeId);
      var cached := redis.Get(key, env.now);
      if cached.Some? {
        return Ok(cached.value), [];
      }
      if env.uid == 0 {
        return Err(Failure(AuthFailed)), [];
      }
      calls := [ListCall(employeeId)];
      r := ListLeaves(env.odoo(ListCall(employeeId)).result);
      if r.Ok? {
        redis.Set(key, r.value, Some(Ttl), env.now);
      }
    }

    /** One leave request, enriched and read through the cache. */
    method GetLeaveById(env: Env, leaveId: int) returns (r: Result<Json>, calls: seq<Call>)
      modifies redis`store
      ensures var key := LeaveKey(leaveId);
              var hit := old(redis.Cached(key, env.now));
              && (hit.Some? ==> r == Ok(hit.value) && calls == [] && redis.store == old(redis.store))
              && (hit.None? ==> r == FetchLeave(env, leaveId) && calls == FetchCalls(env, leaveId))
              && (hit.None? && r.Err? ==> redis.store == old(redis.store))
              && (hit.None? && r.Ok? ==> redis.store == old(redis.AfterSet(key, r.value, Some(Ttl), env.now)))
    {
      var key := LeaveKey(leaveId);
      var cached := redis.Get(key, env.now);
      if cached.Some? {
        return Ok(cached.value), [];
      }
      r := FetchLeave(env, leaveId);
      calls := FetchCalls(env, leaveId);
      if r.Ok? {
        redis.Set(key, r.value, Some(Ttl), env.now);
      }
    }

    /** Creates the request, writes its dates again, drops the list of all
        leaves and the employee's list, and returns the record Odoo reads
        back.  Every failure is reported with the same prefix.  `parseDate`
        stands for `new Date(..)`: milliseconds since the epoch, `None` for
        an invalid date. */
    method CreateLeaveRequest(env: Env, req: Request, parseDate: string -> Option<int>)
      returns (r: Result<Json>, calls: seq<Call>)
      modifies redis`store
      ensures var days := DayCount(parseDate(req.dateFrom), parseDate(req.dateTo));
              var created := env.odoo(CreateCall(req, days));
              && (env.uid == 0 ==>
                    r == Err(Failure(CreatePrefix + AuthFailed)) && calls == [] && redis.store == old(redis.store))
              && (env.uid != 0 && created.error.Some? ==>
                    && r == Err(Failure(CreatePrefix + ErrorText(created.error.value, CreateFailed)))
                    && calls == [CreateCall(req, days)] && redis.store == old(redis.store))
              && (env.uid != 0 && created.error.None? && !Present(created.result) ==>
                    && r == Err(Failure(CreatePrefix + NoNewId))
                    && calls == [CreateCall(req, days)] && redis.store == old(redis.store))
              && (env.uid != 0 && created.error.None? && Present(created.result) ==>
                    var id := created.result.value;
                    && r == Ok(Created(env.odoo(DetailCall(id)).result, id, req, days))
                    && calls == [CreateCall(req, days), FixCall(id, req, days), DetailCall(id)]
                    && redis.store == old(redis.AfterDel({AllKey, EmployeeKey(Text.IntToString(req.employeeId))})))
    {
      if env.uid == 0 {
        return Err(Failure(CreatePrefix + AuthFailed)), [];
      }
      var days := DayCount(parseDate(req.dateFrom), parseDate(req.dateTo));
      var create := CreateCall(req, days);
      calls := [create];
      var created := env.odoo(create);
      if created.error.Some? {
        return Err(Failure(CreatePrefix + ErrorText(created.error.value, CreateFailed))), calls;
      }
      if !Present(created.result) {
        return Err(Failure(CreatePrefix + NoNewId)), calls;
      }
      var id := created.result.value;
      // A failed `write` is only logged.
      calls := calls + [FixCall(id, req, days)];
      var employeeKey := EmployeeKey(Text.IntToString(req.employeeId));
      redis.Del(Redis.One(AllKey));
      redis.Del(Redis.One(employeeKey));
      Redis.RemoveTwice(old(redis.store), {AllKey}, {employeeKey});
      assert {AllKey} + {employeeKey} == {AllKey, employeeKey};
      calls := calls + [DetailCall(id)];
      r := Ok(Created(env.odoo(DetailCall(id)).result, id, req, days));
    }

    /** Approving and refusing share one shape: the action is called, the
        list of all leaves is dropped, the record is looked up (through the
        cache) to drop its employee's list, where a failed lookup is only
        logged, and the record is looked up again and returned.  The last
        lookup is returned without being awaited, so its failure escapes
        the prefix the other failures get. */
    method ChangeStatus(env: Env, leaveId: int, action: string, fallback: string, prefix: string)
      returns (r: Result<Json>, calls: seq<Call>)
      modifies redis`store
      ensures var reply := env.odoo(ActionCall(action, leaveId));
              var hit := old(redis.Cached(LeaveKey(leaveId), env.now));
              var detail := if hit.Some? then Ok(hit.value) else FetchLeave(env, leaveId);
              && (env.uid == 0 ==>
                    r == Err(Failure(prefix + AuthFailed)) && calls == [] && redis.store == old(redis.store))
              && (env.uid != 0 && reply.error.Some? ==>
                    && r == Err(Failure(prefix + ErrorText(reply.error.value, fallback)))
                    && calls == [ActionCall(action, leaveId)] && redis.store == old(redis.store))
              && (env.uid != 0 && reply.error.None? ==>
                    && r == detail
                    && calls == [ActionCall(action, leaveId)] + (if hit.None? then FetchCalls(env, leaveId) else [])
                               + (if hit.None? && !(redis.up && detail.Ok?) then FetchCalls(env, leaveId) else [])
                    && redis.store == if redis.up then AfterStatusChange(old(redis.store), leaveId, hit, detail, env.now)
                                      else old(redis.store))
    {
      if env.uid == 0 {
        return Err(Failure(prefix + AuthFailed)), [];
      }
      var act := ActionCall(action, leaveId);
      calls := [act];
      var reply := env.odoo(act);
      if reply.error.Some? {
        return Err(Failure(prefix + ErrorText(reply.error.value, fallback))), calls;
      }
      ghost var hit := old(redis.Cached(LeaveKey(leaveId), env.now));
      redis.Del(Redis.One(AllKey));
      ClearingKeepsRecord(old(redis.store), leaveId, env.now);
      var detail, first := GetLeaveById(env, leaveId);
      calls := calls + first;
      if NamesEmployee(detail) {
        redis.Del(Redis.One(EmployeeKey(EmployeeOf(detail))));
      }
      if redis.up {
        RecordAfterStatusChange(old(redis.store), leaveId, hit, detail, env.now);
      }
      var again;
      r, again := GetLeaveById(env, leaveId);
      calls := calls + again;
    }

    method ApproveLeaveRequest(env: Env, leaveId: int) returns (r: Result<Json>, calls: seq<Call>)
      modifies redis`store
      ensures var reply := env.odoo(ActionCall("action_approve", leaveId));
              var hit := old(redis.Cached(LeaveKey(leaveId), env.now));
              var detail := if hit.Some? then Ok(hit.value) else FetchLeave(env, leaveId);
              && (env.uid == 0 ==>
                    r == Err(Failure(ApprovePrefix + AuthFailed)) && calls == [] && redis.store == old(redis.store))
              && (env.uid != 0 && reply.error.Some? ==>
                    && r == Err(Failure(ApprovePrefix + ErrorText(reply.error.value, ApproveFailed)))
                    && calls == [ActionCall("action_approve", leaveId)] && redis.store == old(redis.store))
              && (env.uid != 0 && reply.error.None? ==>
                    && r == detail
                    && redis.store == if redis.up then AfterStatusChange(old(redis.store), leaveId, hit, detail, env.now)
                                      else old(redis.store))
    {
      r, calls := ChangeStatus(env, leaveId, "action_approve", ApproveFailed, ApprovePrefix);
    }

    method RefuseLeaveRequest(env: Env, leaveId: int) returns (r: Result<Json>, calls: seq<Call>)
      modifies redis`store
      ensures var reply := env.odoo(ActionCall("action_refuse", leaveId));
              var hit := old(redis.Cached(LeaveKey(leaveId), env.now));
              var detail := if hit.Some? then Ok(hit.value) else FetchLeave(env, leaveId);
              && (env.uid == 0 ==>
                    r == Err(Failure(RefusePrefix + AuthFailed)) && calls == [] && redis.store == old(redis.store))
              && (env.uid != 0 && reply.error.Some? ==>
                    && r == Err(Failure(RefusePrefix + ErrorText(reply.error.value, RefuseFailed)))
                    && calls == [ActionCall("action_refuse", leaveId)] && redis.store == old(redis.store))
              && (env.uid != 0 && reply.error.None? ==>
                    && r == detail
                    && redis.store == if redis.up then AfterStatusChange(old(redis.store), leaveId, hit, detail, env.now)
                                      else old(redis.store))
    {
      r, calls := ChangeStatus(env, leaveId, "action_refuse", RefuseFailed, RefusePrefix);
    }
  }
}

/** The employee service: the employee roster read from Odoo's `hr.employee`
    through the cache, new employees and new work locations written there,
    and the login check that looks a username and password up in the roster
    and remembers a match. */
module Employee {
  import opened Wrappers
  import opened Values
  import opened Odoo
  import Redis

  const Model := "hr.employee"
  const RosterKey := "employees:all"
  const RosterTtl := 3600
  const ValidationTtl := 1800
  const WrongCredentials := "Username atau password salah"
  /** The radius, in metres, written with every new work location. */
  const WorkDistance := 50

  const RosterCall := SearchRead(Model, [], None)

  /** The key under which a successful login of `username` is remembered. */
  function ValidationKey(username: string): string {
    "employee:validate:" + username
  }

  /** A remembered login is never the roster entry, so dropping the roster
      leaves every remembered login in place. */
  lemma RosterChangeKeepsValidations(store: Redis.Store<Json>, username: string)
    requires ValidationKey(username) in store
    ensures ValidationKey(username) in Redis.Remove(store, {RosterKey})
    ensures Redis.Remove(store, {RosterKey})[ValidationKey(username)] == store[ValidationKey(username)]
  {
    assert ValidationKey(username)[8] == ':' && RosterKey[8] == 's';
    Redis.RemoveExactly(store, {RosterKey}, ValidationKey(username));
  }

  // ---------------------------------------------------------------------
  // The roster.

  /** What `getEmployees` settles to on a cache miss: the search result,
      unless it is `undefined` or `null`, whose length cannot be read. */
  function FetchRoster(env: Env): (r: Result<Json>)
    ensures env.uid == 0 ==> r == Err(Failure(AuthFailed))
    ensures r.Ok? <==> env.uid != 0 && !Nullish(env.odoo(RosterCall).result)
    ensures r.Ok? ==> r == Ok(env.odoo(RosterCall).result.value)
  {
    if env.uid == 0 then Err(Failure(AuthFailed))
    else
      var result := env.odoo(RosterCall).result;
      if Nullish(result) then Err(ReadFailure(result, "length")) else Ok(result.value)
  }

  /** Whether `getEmployees` writes the roster on a cache miss: a defined
      result, even `null`, is stored before its length is read. */
  predicate RosterStored(env: Env) {
    env.uid != 0 && env.odoo(RosterCall).result.Some?
  }

  // ---------------------------------------------------------------------
  // Looking a login up.

  /** Whether a roster entry carries exactly this username and password. */
  predicate Credential(item: Json, username: string, password: string) {
    Get(item, "username") == Some(JStr(username)) && Get(item, "password") == Some(JStr(password))
  }

  /** `items.find(..)` for the entry with this username and password.
      Reading the username of a `null` entry throws, so a `null` in front of
      the match is an error. */
  function FindCredential(items: seq<Json>, username: string, password: string): (r: Result<Option<Json>>)
    ensures r.Err? <==> exists i :: 0 <= i < |items| && items[i].JNull? &&
                          forall j :: 0 <= j < i ==> !Credential(items[j], username, password)
    ensures r.Err? ==> r.fault == ReadFailure(Some(JNull), "username")
    ensures r == Ok(None) <==> forall i :: 0 <= i < |items| ==>
                                 !items[i].JNull? && !Credential(items[i], username, password)
    ensures r.Ok? && r.value.Some? ==>
              exists i :: 0 <= i < |items| && items[i] == r.value.value && Credential(items[i], username, password)
                          && forall j :: 0 <= j < i ==> !items[j].JNull? && !Credential(items[j], username, password)
  {
    if items == [] then Ok(None)
    else if items[0].JNull? then Err(ReadFailure(Some(JNull), "username"))
    else if Credential(items[0], username, password) then Ok(Some(items[0]))
    else
      var rest := FindCredential(items[1..], username, password);
      assert forall i :: 0 < i < |items| ==> items[1..][i - 1] == items[i];
      rest
  }

  /** `employees.find(..)` on whatever the roster is: reading `find` of
      `null` throws, and so does calling it on something that is not an
      array. */
  function FindIn(roster: Json, username: string, password: string): (r: Result<Option<Json>>)
    ensures roster.JNull? ==> r == Err(ReadFailure(Some(JNull), "find"))
    ensures roster.JArr? ==> r == FindCredential(roster.items, username, password)
  {
    if roster.JNull? then Err(ReadFailure(Some(JNull), "find"))
    else if !roster.JArr? then Err(Failure("employees.find is not a function"))
    else FindCredential(roster.items, username, password)
  }

  /** What a login settles to once the roster is in hand. */
  function LoginOutcome(found: Result<Option<Json>>): (r: Result<Json>)
    ensures r.Ok? <==> found.Ok? && found.value.Some?
    ensures found == Ok(None) ==> r == Err(Failure(WrongCredentials))
    ensures found.Err? ==> r == Err(found.fault)
    ensures r.Ok? ==> r.value == found.value.value
  {
    match found
    case Err(f) => Err(f)
    case Ok(None) => Err(Failure(WrongCredentials))
    case Ok(Some(e)) => Ok(e)
  }

  /** A login answered from the roster names exactly the username and
      password that were given, and is the first roster entry that does. */
  lemma LoginMatchesRoster(roster: Json, username: string, password: string)
    requires LoginOutcome(FindIn(roster, username, password)).Ok?
    ensures var e := LoginOutcome(FindIn(roster, username, password)).value;
            Credential(e, username, password) && roster.JArr? && e in roster.items
    ensures var e := LoginOutcome(FindIn(roster, username, password)).value;
            exists i :: 0 <= i < |roster.items| && roster.items[i] == e
                        && forall j :: 0 <= j < i ==> !Credential(roster.items[j], username, password)
  {
    var found := FindIn(roster, username, password);
    assert roster.JArr?;
    var i :| 0 <= i < |roster.items| && roster.items[i] == found.value.value
             && Credential(roster.items[i], username, password)
             && forall j :: 0 <= j < i ==> !roster.items[j].JNull? && !Credential(roster.items[j], username, password);
  }

  /** The keyspace after a login that missed the remembered entry, on a
      live server: the roster as `getEmployees` left it, and then the match,
      if there was one, remembered under the username. */
  function AfterLogin(store: Redis.Store<Json>, env: Env, rosterHit: Option<Json>,
                      found: Result<Option<Json>>, username: string): Redis.Store<Json>
  {
    var listed := if rosterHit.None? && RosterStored(env)
                  then Redis.Put(store, RosterKey, env.odoo(RosterCall).result.value, Some(RosterTtl), env.now)
                  else store;
    if found.Ok? && found.value.Some?
    then Redis.Put(listed, ValidationKey(username), found.value.value, Some(ValidationTtl), env.now)
    else listed
  }

  // ---------------------------------------------------------------------
  // Writes.

  function CreateCall(name: string, jobTitle: string): Call {
    Create(Model, map["name" := JStr(name), "job_title" := JStr(jobTitle)])
  }

  /** The new employee as returned: the id Odoo answered with (left out
      when there is none) and the name and job title given. */
  function NewEmployee(id: Option<Json>, name: string, jobTitle: string): (r: Json)
    ensures Get(r, "id") == id
    ensures Get(r, "name") == Some(JStr(name)) && Get(r, "job_title") == Some(JStr(jobTitle))
    ensures r.JObj? && r.fields.Keys <= {"id", "name", "job_title"}
  {
    JObj(Assign(map["name" := JStr(name), "job_title" := JStr(jobTitle)], "id", id))
  }

  /** The `write` of a new work location, which also locks the employee to
      it. */
  function LocationCall(id: int, latitude: Json, longitude: Json): Call {
    Write(Model, JArr([JNum(id)]),
          map["latitude" := latitude, "longitude" := longitude,
              "lock_location" := JBool(true), "distance_work" := JNum(WorkDistance)])
  }

  // ---------------------------------------------------------------------
  // The service.

  class EmployeeService {
    const redis: Redis.RedisService<Json>

    constructor (redis: Redis.RedisService<Json>)
      ensures this.redis == redis
    {
      this.redis := redis;
    }

    /** The roster, read through the cache.  A `null` result is cached
        before reading its length throws. */
    method GetEmployees(env: Env) returns (r: Result<Json>, calls: seq<Call>)
      modifies redis`store
      ensures var hit := old(redis.Cached(RosterKey, env.now));
              && (hit.Some? ==> r == Ok(hit.value) && calls == [] && redis.store == old(redis.store))
              && (hit.None? ==> r == FetchRoster(env) && calls == (if env.uid == 0 then [] else [RosterCall]))
              && (hit.None? && !RosterStored(env) ==> redis.store == old(redis.store))
              && (hit.None? && RosterStored(env) ==>
                    redis.store == old(redis.AfterSet(RosterKey, env.odoo(RosterCall).result.value, Some(RosterTtl), env.now)))
    {
      var cached := redis.Get(RosterKey, env.now);
      if cached.Some? {
        return Ok(cached.value), [];
      }
      if env.uid == 0 {
        return Err(Failure(AuthFailed)), [];
      }
      calls := [RosterCall];
      var result := env.odoo(RosterCall).result;
      if result.None? {
        return Err(ReadFailure(None, "length")), calls;
      }
      redis.Set(RosterKey, result.value, Some(RosterTtl), env.now);
      r := FetchRoster(env);
    }

    /** Creates the employee and drops the cached roster, whatever Odoo
        answered. */
    method CreateEmployee(env: Env, name: string, jobTitle: string) returns (r: Result<Json>, calls: seq<Call>)
      modifies redis`store
      ensures env.uid == 0 ==> r == Err(Failure(AuthFailed)) && calls == [] && redis.store == old(redis.store)
      ensures env.uid != 0 ==>
                && r == Ok(NewEmployee(env.odoo(CreateCall(name, jobTitle)).result, name, jobTitle))
                && calls == [CreateCall(name, jobTitle)]
                && redis.store == old(redis.AfterDel({RosterKey}))
    {
      if env.uid == 0 {
        return Err(Failure(AuthFailed)), [];
      }
      calls := [CreateCall(name, jobTitle)];
      var id := env.odoo(CreateCall(name, jobTitle)).result;
      redis.Del(Redis.One(RosterKey));
      r := Ok(NewEmployee(id, name, jobTitle));
    }

    /** Checks a login.  A remembered entry whose password matches is
        returned at once, without asking Odoo; otherwise the roster is
        searched, and a match is remembered for half an hour. */
    method ValidateEmployee(env: Env, username: string, password: string) returns (r: Result<Json>, calls: seq<Call>)
      modifies redis`store
      ensures var hit := old(redis.Cached(ValidationKey(username), env.now));
              var rosterHit := old(redis.Cached(RosterKey, env.now));
              var roster := if rosterHit.Some? then Ok(rosterHit.value) else FetchRoster(env);
              var found := if roster.Ok? then FindIn(roster.value, username, password) else Err(roster.fault);
              && (hit.Some? && hit.value.JNull? ==>
                    r == Err(ReadFailure(hit, "password")) && calls == [] && redis.store == old(redis.store))
              && (hit.Some? && Get(hit.value, "password") == Some(JStr(password)) ==>
                    r == Ok(hit.value) && calls == [] && redis.store == old(redis.store))
              && (hit.None? || (!hit.value.JNull? && Get(hit.value, "password") != Some(JStr(password))) ==>
                    && r == LoginOutcome(found)
                    && calls == (if rosterHit.None? && env.uid != 0 then [RosterCall] else [])
                    && redis.store == if redis.up then AfterLogin(old(redis.store), env, rosterHit, found, username)
                                      else old(redis.store))
    {
      var key := ValidationKey(username);
      var cached := redis.Get(key, env.now);
      if cached.Some? {
        if cached.value.JNull? {
          return Err(ReadFailure(cached, "password")), [];
        }
        if Get(cached.value, "password") == Some(JStr(password)) {
          return Ok(cached.value), [];
        }
      }
      var roster;
      roster, calls := GetEmployees(env);
      if roster.Err? {
        return Err(roster.fault), calls;
      }
      var found := FindIn(roster.value, username, password);
      if found.Err? {
        return Err(found.fault), calls;
      }
      if found.value.None? {
        return Err(Failure(WrongCredentials)), calls;
      }
      redis.Set(key, found.value.value, Some(ValidationTtl), env.now);
      r := Ok(found.value.value);
    }

    /** Writes the new work location and drops the cached roster; the reply's
        `result` is returned as it is, `None` standing for `undefined`. */
    method UpdateEmployeeLocation(env: Env, id: int, latitude: Json, longitude: Json)
      returns (r: Result<Option<Json>>, calls: seq<Call>)
      modifies redis`store
      ensures env.uid == 0 ==> r == Err(Failure(AuthFailed)) && calls == [] && redis.store == old(redis.store)
      ensures env.uid != 0 ==>
                && r == Ok(env.odoo(LocationCall(id, latitude, longitude)).result)
                && calls == [LocationCall(id, latitude, longitude)]
                && redis.store == old(redis.AfterDel({RosterKey}))
    {
      if env.uid == 0 {
        return Err(Failure(AuthFailed)), [];
      }
      var call := LocationCall(id, latitude, longitude);
      calls := [call];
      var reply := env.odoo(call);
      redis.Del(Redis.One(RosterKey));
      r := Ok(reply.result);
    }
  }

  /** A remembered login outlives every change to the roster: after an
      employee is created or moved, the old entry still answers for the
      username for as long as it lives, with the password it was stored
      with. */
  lemma RememberedLoginOutlivesRosterChange(store: Redis.Store<Json>, username: string, password: string, now: int)
    requires var e := Redis.Lookup(store, ValidationKey(username), now);
             e.Some? && Get(e.value, "password") == Some(JStr(password))
    ensures Redis.Lookup(Redis.Remove(store, {RosterKey}), ValidationKey(username), now)
            == Redis.Lookup(store, ValidationKey(username), now)
  {
    RosterChangeKeepsValidations(store, username);
  }
}

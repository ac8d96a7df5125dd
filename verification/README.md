# A verified model of the HR backend's cache layer

The backend is a NestJS service that reads HR data (payroll, attendance,
leave, employees) from an Odoo ERP over JSON-RPC. It keeps the answers in
Redis under keys that spell out the query. This project models:

- the Redis wrapper the services share;
- the four services' read-through caches;
- how each write invalidates cache entries.

It proves what those promise and where they fall short.

The model is organised as follows:

- `wrappers.dfy`: `Option`, `Result`, and the two kinds of exception the services throw.
- `text.dfy`: `trim`, ASCII `toLowerCase`, decimal rendering of integers, and substring search.
- `glob.dfy`: the `*` glob patterns of `KEYS`/`SCAN ... MATCH`, with the lemmas that the invalidation proofs need.
- `values.dfy`: the JavaScript values read from JSON, with truthiness, property reads, `||`, `??` and `String(..)`.
- `redis.dfy`: the key space as a map of entries with expiry times, and the `RedisService` class over it.
- `odoo.dfy`: Odoo as an oracle that answers each `execute_kw` call with a reply.
- `payroll.dfy`, `attendance.dfy`, `leave.dfy`, `employee.dfy`: one class per service. Each class holds the shared cache client. Each service method returns its outcome and the list of Odoo calls it made. Its contract states the outcome, the calls and the new key space for every branch of the code.

An `Env` value holds what a call depends on besides its arguments:

- the uid from authentication (0 when authentication failed);
- the Odoo oracle;
- the clock in seconds;
- today's date in Asia/Jakarta.

A cached value stands for its JSON text: `JSON.stringify` followed by `JSON.parse` is the identity.

## Model

| member | source | states |
|---|---|---|
| Redis.RetryDelay | src/redis/redis.service.ts:23-28 | The reconnect delay is at most both `times * 50` ms and 2000 ms, and equals one of them, so it is their minimum; it is never negative for a non-negative attempt count. |
| Redis.RetryDelayMonotone | src/redis/redis.service.ts:23-28 | The delay never shrinks as the attempts grow. |
| Redis.RetryDelayCap | src/redis/redis.service.ts:23-28 | From the 40th attempt on, the delay is the 2000 ms cap. |
| Redis.RedisService.Get | src/redis/redis.service.ts:41-56 | `get` answers the live value under the key, or a miss when the key is absent, expired or the server fails. A hit is a stored entry. |
| Redis.RedisService.Set | src/redis/redis.service.ts:58-76 | `set` writes the value with `EX ttl` for a positive TTL and without expiry for an absent or zero one. A refused (negative) TTL or a failed server leaves the key space unchanged. |
| Redis.PutWithTtl | src/redis/redis.service.ts:58-64 | A value written with a positive TTL is read back until the TTL runs out. |
| Redis.PutWithoutTtl | src/redis/redis.service.ts:65-70 | A value written without a TTL is read back at any later time. |
| Redis.PutOnlyTouchesKey | src/redis/redis.service.ts:58-76 | A write leaves every other key as it was. |
| Redis.RedisService.Del | src/redis/redis.service.ts:78-93 | `del` removes exactly the given keys. An empty key list sends no command and changes nothing. |
| Redis.RemoveExactly | src/redis/redis.service.ts:78-93 | After a deletion a key is present iff it was present and not deleted, and it keeps its entry. |
| Redis.RemoveTwice | src/redis/redis.service.ts:78-93 | Two deletions in a row equal one deletion of both key sets. |
| Redis.RedisService.Keys | src/redis/redis.service.ts:95-108 | `keys` lists each live key matching the pattern exactly once. A failure lists nothing. |
| Redis.RedisService.FlushAll | src/redis/redis.service.ts:110-117 | `flushAll` empties the key space unless the server fails. |
| Redis.RedisService.DelPattern | src/redis/redis.service.ts:120-166 | The SCAN loop deletes every key the server returned, in every batch up to a failure. It reports the batch total when the scan completed and 0 when it failed; a failed server deletes nothing. |
| Redis.DelPatternClears | src/redis/redis.service.ts:126-154 | After a completed scan that covered every live match, no live key matches the pattern. |
| Redis.DelPatternSpares | src/redis/redis.service.ts:126-154 | A key that does not match the pattern survives, with its entry unchanged. |
| Redis.DelPatternZeroMatch | src/redis/redis.service.ts:126-159 | With no live match, the loop deletes nothing and reports 0. |
| Payroll.CanonicalMonth | src/payroll/payroll.service.ts:341-376 | A month given in any of the 24 accepted spellings (trimmed, ASCII case ignored) yields a full Indonesian month name. It succeeds iff the normalised input is an accepted spelling; otherwise it is a `BadRequest` carrying the input in its message. |
| Payroll.FullNameIsSpelling | src/payroll/payroll.service.ts:343-368 | Every full month name is itself an accepted spelling of that month. |
| Payroll.CanonicalMonthIdempotent | src/payroll/payroll.service.ts:341-376 | Canonicalising a canonical month name gives it back. |
| Payroll.NormalizeMonthIdempotent | src/payroll/payroll.service.ts:378-380 | Normalising a month name twice equals normalising it once. |
| Payroll.AbbreviationSameMonth | src/payroll/payroll.service.ts:357-359 | "Agu" and "Agustus" canonicalise to the same month. |
| Payroll.InvalidationPatterns | src/payroll/payroll.service.ts:388-394 | Invalidation deletes two patterns, narrow (one employee) first. |
| Payroll.InvalidationCoversReadKeys | src/payroll/payroll.service.ts:131-139 | The broad pattern matches every read key with the same year and month word, for any periods, employee, limit and offset. The narrow pattern matches those of the same employee. |
| Payroll.NarrowWithinBroad | src/payroll/payroll.service.ts:391-394 | Every key the narrow pattern matches, the broad one matches too. |
| Payroll.MatchedKeyHasMonthWord | src/payroll/payroll.service.ts:383-398 | A read key matched by the broad pattern has the pattern's month word. |
| Payroll.InvalidationSparesOtherMonths | src/payroll/payroll.service.ts:383-398 | Neither pattern matches a read key of another month word. |
| Payroll.ReadKeyDeterminesMonthWord | src/payroll/payroll.service.ts:131-139 | Two read keys that differ only in the month are equal iff their month words are. |
| Payroll.AbbreviationKeysDiffer | src/payroll/payroll.service.ts:134 | "Agu" and "Agustus" cache the same query under two different keys. |
| Payroll.AbbreviationSurvivesInvalidation | src/payroll/payroll.service.ts:388-394 | Invalidating "Agustus" leaves the keys read under "Agu" in place. |
| Payroll.BlankMonthMissesYearKeys | src/payroll/payroll.service.ts:134 | A blank month reads the whole year under `m:all`. Invalidating with the same blank month targets the empty word and misses those keys. |
| Payroll.FirstHit | src/payroll/payroll.service.ts:291-298 | The lookups run in order. Every lookup before the last one made found nothing. The search stops early only on an error or a non-empty result. The result is the last search made. |
| Payroll.PayrollService.SearchPeriodIdsByMonth | src/payroll/payroll.service.ts:277-299 | It tries the exact period name, then `ilike` on the period name, then `ilike` on the record name, each with the year filter when a year is given. |
| Payroll.PayrollService.LookupPeriods | src/payroll/payroll.service.ts:108-122 | A month that is given is canonicalised and searched; an unknown month fails before any search. Without a month, every period of the year is searched. |
| Payroll.PayrollService.ReadThrough | src/payroll/payroll.service.ts:141-176 | A hit is returned without asking Odoo. On a miss, the rows or the Odoo error are returned, and only rows are stored, for an hour. |
| Payroll.PayrollService.GetPayrollByMonthYear | src/payroll/payroll.service.ts:98-177 | A missing year is a `BadRequest`. A failed or empty period lookup ends with its error or `[]`, and the cache is untouched. Otherwise the key that spells out the query (limit 200 and offset 0 by default) is read through. |
| Payroll.FiltersExact | src/payroll/payroll.service.ts:206-207 | The finder adds a year filter exactly when a year is given and an employee filter exactly when an employee is, and nothing else. |
| Payroll.PayrollService.SearchRows | src/payroll/payroll.service.ts:206-238 | The rows search runs on the period filter plus the year and employee filters. An error is reported with the default message 'Odoo error'. |
| Payroll.PayrollService.RowsOfPeriods | src/payroll/payroll.service.ts:195-203 | A failed period lookup ends with its error and an empty one with `[]`; otherwise the rows of the periods found are searched. |
| Payroll.PayrollService.FindByEmployeePeriodYearFlexible | src/payroll/payroll.service.ts:180-239 | A numeric period filters on that period id directly. A month name goes through the month lookup, and an unknown month fails with no call. A year alone goes through the year's periods, and no filter at all searches everything. |
| Payroll.PayrollService.InvalidateMonthCache | src/payroll/payroll.service.ts:383-398 | The key space loses exactly the keys each pattern's SCAN visited, narrow pattern first. A failed server deletes nothing. |
| Payroll.InvalidationClearsMonth | src/payroll/payroll.service.ts:383-398 | After a completed broad scan, no read key of the invalidated year and month word is visible, for any employee, periods or page. |
| Payroll.InvalidationKeepsOtherMonths | src/payroll/payroll.service.ts:383-398 | A read key of another month word survives the invalidation unchanged. |
| Attendance.DayKeyInjective | src/attendance/attendance.service.ts:21-25 | Two day keys are equal only for the same employee and the same date. |
| Attendance.DayKeyIsNotRangeKey | src/attendance/attendance.service.ts:21-25 | A day key is never a date-range key. |
| Attendance.DayKeyIsNotEmployeeRangeKey | src/attendance/attendance.service.ts:21-25 | A day key is never an employee date-range key. |
| Attendance.NameAsArray | src/attendance/attendance.service.ts:41-49 | A record comes back with `name` as an array. Only a `null` record throws. |
| Attendance.NamesAsArrays | src/attendance/attendance.service.ts:29-39 | A list is normalised record by record, keeping its length. It fails iff some record is `null`. |
| Attendance.NameAsArrayKeeps | src/attendance/attendance.service.ts:31-37 | A record whose name is already an array passes unchanged, and every other field of a record is kept. |
| Attendance.NameAsArrayIdempotent | src/attendance/attendance.service.ts:41-49 | Normalising a normalised record changes nothing. |
| Attendance.EnsureNameIsArrayIdempotent | src/attendance/attendance.service.ts:28-51 | Normalising normalised data, whether a list or a record, changes nothing. |
| Attendance.CleanBase64 | src/attendance/attendance.service.ts:341-346 | The output differs from the input iff the input contains `base64,`. The output never contains `base64,`. It starts right after the first occurrence and ends at the next occurrence or at the end of the input. |
| Attendance.TranslateDayRoundTrip | src/attendance/attendance.service.ts:374-386 | The seven English day names translate one to one into Indonesian. Any other text is returned as it is. |
| Attendance.AttendanceService.CreateAttendance | src/attendance/attendance.service.ts:53-111 | A failed authentication or a falsy create result throws and leaves the cache untouched. A success drops exactly today's entry of that employee. |
| Attendance.AttendanceService.ReadNormalized | src/attendance/attendance.service.ts:114-187 | A hit is normalised and returned without asking Odoo. A miss stores `result \|\| []` for the TTL and returns it normalised. |
| Attendance.AttendanceService.GetAttendanceByEmployeeIdToday | src/attendance/attendance.service.ts:114-187 | It reads through today's key for 15 minutes. |
| Attendance.AttendanceService.GetAttendanceByDateRange | src/attendance/attendance.service.ts:190-261 | It reads through the range key for 30 minutes. |
| Attendance.AttendanceService.GetAttendanceByEmployeeIdAndDateRange | src/attendance/attendance.service.ts:264-338 | It reads through the employee range key for 30 minutes. |
| Attendance.CreateKeepsOtherEntries | src/attendance/attendance.service.ts:103-105 | Recording attendance leaves every range entry and every other employee's or day's entry as it was. |
| Leave.ListKeyInjective | src/leave/leave.service.ts:79-81 | Different employees' leave lists have different keys, and none of them is the list of all leaves. |
| Leave.LeaveKeyIsNoListKey | src/leave/leave.service.ts:482 | A leave record's key is never a list key. |
| Leave.Enrich | src/leave/leave.service.ts:132-147 | Enrichment keeps every field except the four link fields. Only a `null` record throws. |
| Leave.EnrichSplitsLinks | src/leave/leave.service.ts:536-549 | A many-to-one link `[id, name]` is split into its id and its name. An empty link gives two nulls. |
| Leave.EnrichAll | src/leave/leave.service.ts:132-147 | A list is enriched record by record, keeping its length. It fails iff some record is `null`. |
| Leave.ListLeaves | src/leave/leave.service.ts:132-147 | A nullish result throws reading `map`, and a non-array throws "leaves.map is not a function". An array with a null record throws. Otherwise each output record is the enrichment of the input record at the same position, with the length kept. |
| Leave.DayCount | src/leave/leave.service.ts:185-188 | The day count is the whole days from start to end plus one, rounded down. An invalid date sends `null`. |
| Leave.DayCountWholeDays | src/leave/leave.service.ts:185-188 | A request from one date to a date n days later counts n + 1 days. |
| Leave.FallbackEchoesRequest | src/leave/leave.service.ts:319-337 | When Odoo returns no record, the record returned repeats every field that was sent except the image. |
| Leave.MergeIds | src/leave/leave.service.ts:350-356 | A created record with empty links keeps the requested employee and leave type, with null names. A linked one takes its link's id and name. |
| Leave.FetchLeave | src/leave/leave.service.ts:497-549 | On a miss, a failed authentication throws. So does an empty or absent result, with the "tidak ditemukan" message. A success is the enriched first record. |
| Leave.StatusChangeKeepsRecord | src/leave/leave.service.ts:396-415 | Approving or refusing never drops the leave's own record, so a record cached before the change is still cached afterwards. |
| Leave.StatusChangeClearsLists | src/leave/leave.service.ts:396-410 | After a status change, neither the list of all leaves nor the employee's list (the key `getLeaves` reads for that employee) is cached. |
| Leave.LeaveService.GetLeaveTypes | src/leave/leave.service.ts:20-76 | A hit is returned. On a miss, the result is stored for 30 minutes. Reading the length of a null or undefined result throws. |
| Leave.LeaveService.GetLeaves | src/leave/leave.service.ts:78-161 | It reads through one employee's list or the list of all leaves. The enriched list is stored for 30 minutes, and a result that cannot be enriched is not stored. |
| Leave.LeaveService.GetLeaveById | src/leave/leave.service.ts:481-563 | A hit is returned without asking Odoo. On a miss, the fetch outcome is returned, and only a found record is stored, for 30 minutes. |
| Leave.LeaveService.CreateLeaveRequest | src/leave/leave.service.ts:163-361 | Every failure carries the prefix 'Gagal membuat permintaan cuti: '. On success the dates are written again and both lists are dropped. The record read back is returned, or the fallback when there is none. |
| Leave.LeaveService.ChangeStatus | src/leave/leave.service.ts:363-420 | A failed authentication or a failed action throws with the prefix. On success, the list of all leaves and the record's employee list are dropped. The record, possibly a stale cached one, is returned without the prefix on failure. |
| Leave.LeaveService.ApproveLeaveRequest | src/leave/leave.service.ts:363-420 | `action_approve` through the status change, with its own messages. |
| Leave.LeaveService.RefuseLeaveRequest | src/leave/leave.service.ts:422-479 | `action_refuse` through the status change, with its own messages. |
| Employee.RosterChangeKeepsValidations | src/employee/employee.service.ts:111 | Dropping the roster leaves every remembered login in place. |
| Employee.RememberedLoginOutlivesRosterChange | src/employee/employee.service.ts:119-130 | A remembered login still answers after a roster change, with the password it was stored with. |
| Employee.FetchRoster | src/employee/employee.service.ts:32-80 | On a miss, a failed authentication throws, and so does reading the length of a null or undefined result. Otherwise the search result is returned. |
| Employee.FindCredential | src/employee/employee.service.ts:141-143 | The first entry with exactly this username and password is found. The search fails iff a `null` entry comes before any match. It finds nothing iff no entry matches. |
| Employee.FindIn | src/employee/employee.service.ts:141-143 | A `null` roster throws. An array roster is searched entry by entry. |
| Employee.LoginOutcome | src/employee/employee.service.ts:140-162 | No match throws 'Username atau password salah'. An error from reading the roster or searching it passes through unchanged. A match is returned exactly as found. |
| Employee.LoginMatchesRoster | src/employee/employee.service.ts:140-162 | A login answered from the roster returns a roster entry with exactly the given username and password, and no earlier entry has them, as `find` returns the first match. |
| Employee.NewEmployee | src/employee/employee.service.ts:107-108 | The new employee carries the id Odoo answered with, and the given name and job title. |
| Employee.EmployeeService.GetEmployees | src/employee/employee.service.ts:19-81 | A hit is returned. On a miss, a defined result is stored for an hour. Reading the length of a null or undefined result throws. |
| Employee.EmployeeService.CreateEmployee | src/employee/employee.service.ts:83-115 | A failed authentication throws. Otherwise the employee is created and the roster is dropped, whatever Odoo answered. |
| Employee.EmployeeService.ValidateEmployee | src/employee/employee.service.ts:117-163 | A remembered entry with the same password is returned without asking Odoo. Otherwise the roster is read through and searched, and a match is remembered for 30 minutes. |
| Employee.EmployeeService.UpdateEmployeeLocation | src/employee/employee.service.ts:165-202 | It writes the location, locked, with a 50 m radius. It drops only the roster and returns Odoo's result as it is. |

## Left out

- The JSON-RPC transport, network failures and Odoo's own behaviour are out of scope. The reply to each call is an oracle in `Env`.
- Authentication is out of scope. The uid is an input, and 0 stands for a failed login. The payroll service does not check the uid, and neither does its model.
- moment-timezone is not modelled. `createAttendance` takes the UTC time stamp, the weekday, the hours of the day and the date as a `Moment` value, and "today" comes from `Env`. The float conversion of the time is part of that value.
- `new Date(..)` is not modelled. It is the `parseDate` parameter of `CreateLeaveRequest`: milliseconds since the epoch, or `None` for an invalid date.
- JSON serialisation is taken as exact. Properties set to `undefined` are left out of a record, as `JSON.stringify` drops them. Numbers are integers: floating point, `NaN` and numbers beyond 2^53 are not modelled. Latitude and longitude are passed on as opaque values.
- Object spread of something that is not an object copies no properties; spreading a string would copy its characters.
- ioredis is modelled only as far as its results matter:
  - UNLINK versus DEL, the pipeline and the offline queue are not modelled;
  - SCAN's answers are a parameter (`steps`), including its duplicates and keys written mid-scan;
  - `InvalidateMonthCache` takes exactly the two SCAN runs of its two patterns.
- Glob patterns are matched only with `*`. The services build patterns from ids and month words, and other wildcard characters in those inputs are not modelled.
- `toLowerCase` is modelled on ASCII only: a non-ASCII character that lowercases to an ASCII letter (the Kelvin sign, say) is not. Object-prototype names such as `constructor` used as a month or day name are not modelled either.
- Odoo's search results are read as arrays. Any other shape reads as no ids or no rows.
- Leave.LeaveService.GetLeaveTypes: an `undefined` result is modelled as writing nothing. The real call stores an empty string, which later reads as a miss, so the cache answers the same.
- Employee.EmployeeService.GetEmployees: the same treatment of an `undefined` result as for the leave types.
- Leave.LeaveService.ApproveLeaveRequest and Leave.LeaveService.RefuseLeaveRequest state the Odoo calls only through `Leave.LeaveService.ChangeStatus`.
- Logging, the GraphQL resolvers and DTOs, the S3 upload, the cache-flush controller and the payroll field list are outside this model.
- Concurrent requests are not modelled: each operation runs alone against the key space.

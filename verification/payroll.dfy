/** The payroll service: payroll rows by month and year, read through the
    cache under a key that spells out the query, and the glob patterns that
    invalidate those keys. */
module Payroll {
  import opened Wrappers
  import opened Values
  import opened Odoo
  import Text
  import Glob
  import Redis

  const CacheTtl := 3600
  const KeyPrefix := "payroll:list"
  const PayrollModel := "ssm.payrollssm"
  const PeriodModel := "periode.payment"
  const PeriodSearchLimit := 48
  const DefaultLimit := 200
  const DefaultOffset := 0
  const YearRequired := "Parameter \"year\" wajib diisi"

  /** The month an accepted spelling stands for, once trimmed and
      lower-cased; `None` for any other word. */
  function MonthFor(spelling: string): (r: Option<string>)
    ensures r.Some? ==> r.value in MonthNames
  {
    match spelling
    case "jan" | "januari" => Some("Januari")
    case "feb" | "februari" => Some("Februari")
    case "mar" | "maret" => Some("Maret")
    case "apr" | "april" => Some("April")
    case "mei" => Some("Mei")
    case "jun" | "juni" => Some("Juni")
    case "jul" | "juli" => Some("Juli")
    case "agu" | "agt" | "agustus" => Some("Agustus")
    case "sep" | "september" => Some("September")
    case "okt" | "oktober" => Some("Oktober")
    case "nov" | "november" => Some("November")
    case "des" | "desember" => Some("Desember")
    case _ => None
  }

  const MonthNames: set<string> := {
    "Januari", "Februari", "Maret", "April", "Mei", "Juni",
    "Juli", "Agustus", "September", "Oktober", "November", "Desember"
  }

  // ---------------------------------------------------------------------
  // Month names.

  function NormalizeMonth(name: string): string {
    Text.Lower(Text.Trim(name))
  }

  lemma NormalizeMonthIdempotent(name: string)
    ensures NormalizeMonth(NormalizeMonth(name)) == NormalizeMonth(name)
  {
    var t := Text.Trim(name);
    Text.TrimLowerCommute(t);
    Text.TrimIdempotent(name);
    Text.LowerIdempotent(t);
  }

  function InvalidMonth(input: string): string {
    "Bulan \"" + input + "\" tidak valid. Contoh: \"Agustus\" atau \"Agu\"."
  }

  /** The full Indonesian name of a month given in any accepted spelling,
      ignoring surrounding white space and ASCII case. */
  function CanonicalMonth(input: string): (r: Result<string>)
    ensures r.Ok? ==> r.value in MonthNames
    ensures r.Ok? <==> MonthFor(NormalizeMonth(input)).Some?
    ensures r.Err? ==> r.fault == BadRequest(InvalidMonth(input))
  {
    match MonthFor(NormalizeMonth(input))
    case Some(full) => Ok(full)
    case None => Err(BadRequest(InvalidMonth(input)))
  }

  lemma Spelled(full: string, word: string)
    requires Text.Trimmed(full) && Text.Lower(full) == word && MonthFor(word) == Some(full)
    ensures MonthFor(NormalizeMonth(full)) == Some(full)
  {
    Text.TrimKeepsTrimmed(full);
  }

  lemma OwnSpellingJanMar(full: string)
    requires full == "Januari" || full == "Februari" || full == "Maret"
    ensures MonthFor(NormalizeMonth(full)) == Some(full)
  {
    if full == "Januari" { Spelled("Januari", "januari"); }
    if full == "Februari" { Spelled("Februari", "februari"); }
    if full == "Maret" { Spelled("Maret", "maret"); }
  }

  lemma OwnSpellingAprJun(full: string)
    requires full == "April" || full == "Mei" || full == "Juni"
    ensures MonthFor(NormalizeMonth(full)) == Some(full)
  {
    if full == "April" { Spelled("April", "april"); }
    if full == "Mei" { Spelled("Mei", "mei"); }
    if full == "Juni" { Spelled("Juni", "juni"); }
  }

  lemma OwnSpellingJulSep(full: string)
    requires full == "Juli" || full == "Agustus" || full == "September"
    ensures MonthFor(NormalizeMonth(full)) == Some(full)
  {
    if full == "Juli" { Spelled("Juli", "juli"); }
    if full == "Agustus" { Spelled("Agustus", "agustus"); }
    if full == "September" { Spelled("September", "september"); }
  }

  lemma OwnSpellingOktDes(full: string)
    requires full == "Oktober" || full == "November" || full == "Desember"
    ensures MonthFor(NormalizeMonth(full)) == Some(full)
  {
    if full == "Oktober" { Spelled("Oktober", "oktober"); }
    if full == "November" { Spelled("November", "november"); }
    if full == "Desember" { Spelled("Desember", "desember"); }
  }

  /** Each full month name is itself an accepted spelling of that month. */
  lemma FullNameIsSpelling(full: string)
    requires full in MonthNames
    ensures MonthFor(NormalizeMonth(full)) == Some(full)
  {
    if full == "Januari" || full == "Februari" || full == "Maret" {
      OwnSpellingJanMar(full);
    } else if full == "April" || full == "Mei" || full == "Juni" {
      OwnSpellingAprJun(full);
    } else if full == "Juli" || full == "Agustus" || full == "September" {
      OwnSpellingJulSep(full);
    } else {
      OwnSpellingOktDes(full);
    }
  }

  /** Canonicalising a canonical name gives it back. */
  lemma CanonicalMonthIdempotent(input: string)
    requires CanonicalMonth(input).Ok?
    ensures CanonicalMonth(CanonicalMonth(input).value) == CanonicalMonth(input)
  {
    FullNameIsSpelling(CanonicalMonth(input).value);
  }

  // ---------------------------------------------------------------------
  // Cache keys and invalidation patterns.

  /** `monthName?.trim()` is truthy. */
  predicate HasMonth(monthName: Option<string>) {
    monthName.Some? && Text.Trim(monthName.value) != ""
  }

  /** The word after `m:` in a read key. */
  function ReadMonthWord(monthName: Option<string>): string {
    if HasMonth(monthName) then NormalizeMonth(monthName.value) else "all"
  }

  /** The word after `m:` in an invalidation pattern: the month test there
      does not trim, so a blank month gives the empty word. */
  function InvalidationMonthWord(monthName: Option<string>): string {
    if monthName.Some? && monthName.value != "" then NormalizeMonth(monthName.value) else "all"
  }

  function EmployeeSegment(employeeId: int): string {
    if employeeId != 0 then "emp" + Text.IntToString(employeeId) else "all"
  }

  /** The key segments up to the month word, shared by the read keys and
      the invalidation patterns. */
  function MonthBase(yearText: string, word: string): string {
    KeyPrefix + ":y" + yearText + ":m:" + word
  }

  /** The remaining segments of a read key behind its month base. */
  function KeyText(base: string, periods: string, employee: string, limit: string, offset: string): string {
    base + ":p" + periods + ":" + employee + ":l" + limit + ":o" + offset
  }

  /** The cache key of one payroll query: the seven segments prefix, year,
      month, periods, employee, limit and offset, joined by ':'. */
  function ReadKey(tahun: string, monthName: Option<string>, ids: seq<Json>, employeeId: int, limit: int, offset: int): string {
    KeyText(MonthBase(tahun, ReadMonthWord(monthName)), Display(JArr(ids)), EmployeeSegment(employeeId),
            Text.IntToString(limit), Text.IntToString(offset))
  }

  function InvalidationBase(year: Json, monthName: Option<string>): string {
    MonthBase(Display(year), InvalidationMonthWord(monthName))
  }

  /** The two patterns `invalidateMonthCache` deletes, narrow one first. */
  function InvalidationPatterns(year: Json, monthName: Option<string>, employeeId: int): (ps: seq<string>)
    ensures |ps| == 2
  {
    var base := InvalidationBase(year, monthName);
    [base + ":p*:" + EmployeeSegment(employeeId) + ":*", base + ":p*:*"]
  }

  /** `*:*` after a common prefix matches any key with a colon after it. */
  lemma BroadShape(a: string, x: string, y: string)
    ensures Glob.Matches(a + "*:*", a + x + ":" + y)
  {
    Glob.StarMatchesAll(y);
    Glob.SamePrefix(":", "*", y);
    assert ":" + "*" == ":*";
    Glob.StarAbsorbs(":*", x, ":" + y);
    assert "*" + ":*" == "*:*";
    Glob.SamePrefix(a, "*:*", x + (":" + y));
    assert a + (x + (":" + y)) == a + x + ":" + y;
  }

  /** `*:e:*` after a common prefix matches any key with `:e:` after it. */
  lemma NarrowShape(a: string, x: string, e: string, y: string)
    ensures Glob.Matches(a + "*:" + e + ":*", a + x + ":" + e + ":" + y)
  {
    var m := ":" + e + ":";
    Glob.StarMatchesAll(y);
    Glob.SamePrefix(m, "*", y);
    Glob.StarAbsorbs(m + "*", x, m + y);
    Glob.SamePrefix(a, "*" + (m + "*"), x + (m + y));
    assert a + ("*" + (m + "*")) == a + "*:" + e + ":*";
    assert a + (x + (m + y)) == a + x + ":" + e + ":" + y;
  }

  /** Both patterns of a month base match the keys under it, the narrow
      one those of its own employee segment. */
  lemma KeyTextCovered(base: string, periods: string, employee: string, limit: string, offset: string)
    ensures Glob.Matches(base + ":p*:*", KeyText(base, periods, employee, limit, offset))
    ensures Glob.Matches(base + ":p*:" + employee + ":*", KeyText(base, periods, employee, limit, offset))
  {
    var a := base + ":p";
    var tail := "l" + limit + ":o" + offset;
    assert KeyText(base, periods, employee, limit, offset) == a + periods + ":" + (employee + ":" + tail);
    assert KeyText(base, periods, employee, limit, offset) == a + periods + ":" + employee + ":" + tail;
    BroadShape(a, periods, employee + ":" + tail);
    NarrowShape(a, periods, employee, tail);
    assert a + "*:*" == base + ":p*:*";
    assert a + "*:" + employee + ":*" == base + ":p*:" + employee + ":*";
  }

  lemma NarrowTailWithinBroad(e: string, t: string)
    ensures Glob.Matches("*:" + e + ":*", t) ==> Glob.Matches("*:*", t)
  {
    if Glob.Matches("*:" + e + ":*", t) {
      assert "*:" + e + ":*" == "*" + (":" + (e + ":*"));
      Glob.StarSplit(":" + (e + ":*"), t);
      var k :| 0 <= k <= |t| && Glob.Matches(":" + (e + ":*"), t[k..]);
      Glob.LiteralPrefixNeeded(":", e + ":*", t[k..]);
      var rest := t[k..][1..];
      BroadShape("", t[..k], rest);
      assert "" + "*:*" == "*:*";
      assert "" + t[..k] + ":" + rest == t;
    }
  }

  /** A key the narrow pattern of a base matches, the broad one matches too. */
  lemma NarrowShapeWithinBroad(base: string, e: string, s: string)
    requires Glob.Matches(base + ":p*:" + e + ":*", s)
    ensures Glob.Matches(base + ":p*:*", s)
  {
    forall t | Glob.Matches("*:" + e + ":*", t) ensures Glob.Matches("*:*", t) {
      NarrowTailWithinBroad(e, t);
    }
    assert base + ":p*:" + e + ":*" == (base + ":p") + ("*:" + e + ":*");
    assert base + ":p*:*" == (base + ":p") + "*:*";
    Glob.PrefixMonotone(base + ":p", "*:" + e + ":*", "*:*", s);
  }

  /** A key that a pattern with a star-free prefix ending in `w2:` matches,
      and that has a colon-free word `w1` behind the same text, has `w1 == w2`. */
  lemma WordFixed(common: string, w1: string, w2: string, r: string, q: string)
    requires Glob.Literal(common + w2 + ":")
    requires Text.ColonFree(w1) && Text.ColonFree(w2)
    requires Glob.Matches(common + w2 + ":" + q, common + (w1 + ":" + r))
    ensures w1 == w2
  {
    var lit := common + w2 + ":";
    var key := common + (w1 + ":" + r);
    Glob.LiteralPrefixNeeded(lit, q, key);
    var rest := key[|lit|..];
    assert key == common + (w2 + ":" + rest);
    assert key[|common|..] == w1 + ":" + r;
    Text.ColonSplit(w1, w2, r, rest);
  }

  lemma KeyTextSplit(common: string, w: string, periods: string, employee: string, limit: string, offset: string)
    ensures KeyText(common + w, periods, employee, limit, offset)
         == common + (w + ":" + ("p" + periods + ":" + employee + ":l" + limit + ":o" + offset))
  {
  }

  /** A broad pattern with a star-free base fixes the colon-free month word
      of every key it matches. */
  lemma KeyTextWordFixed(common: string, w1: string, w2: string,
                         periods: string, employee: string, limit: string, offset: string)
    requires Glob.Literal(common) && Glob.Literal(w2)
    requires Text.ColonFree(w1) && Text.ColonFree(w2)
    requires Glob.Matches(common + w2 + ":p*:*", KeyText(common + w1, periods, employee, limit, offset))
    ensures w1 == w2
  {
    Glob.LiteralConcat(common, w2);
    Glob.LiteralConcat(common + w2, ":");
    assert common + w2 + ":p*:*" == common + w2 + ":" + "p*:*";
    KeyTextSplit(common, w1, periods, employee, limit, offset);
    WordFixed(common, w1, w2, "p" + periods + ":" + employee + ":l" + limit + ":o" + offset, "p*:*");
  }

  lemma MonthBasePlain(yearText: string)
    requires Glob.Literal(yearText)
    ensures Glob.Literal(KeyPrefix + ":y" + yearText + ":m:")
  {
    Glob.LiteralConcat(KeyPrefix + ":y", yearText);
    Glob.LiteralConcat(KeyPrefix + ":y" + yearText, ":m:");
  }

  /** The broad pattern matches every read key of the same year and month
      word, whatever its periods, employee and page; the narrow one those
      of the same employee. */
  lemma InvalidationCoversReadKeys(year: Json, invMonth: Option<string>, invEmployee: int,
                                   readMonth: Option<string>, ids: seq<Json>, employeeId: int, limit: int, offset: int)
    requires ReadMonthWord(readMonth) == InvalidationMonthWord(invMonth)
    ensures Glob.Matches(InvalidationPatterns(year, invMonth, invEmployee)[1],
                         ReadKey(Display(year), readMonth, ids, employeeId, limit, offset))
    ensures employeeId == invEmployee ==>
              Glob.Matches(InvalidationPatterns(year, invMonth, invEmployee)[0],
                           ReadKey(Display(year), readMonth, ids, employeeId, limit, offset))
  {
    KeyTextCovered(InvalidationBase(year, invMonth), Display(JArr(ids)), EmployeeSegment(employeeId),
                   Text.IntToString(limit), Text.IntToString(offset));
  }

  /** Whatever the narrow pattern deletes, the broad one deletes too. */
  lemma NarrowWithinBroad(year: Json, monthName: Option<string>, employeeId: int, key: string)
    requires Glob.Matches(InvalidationPatterns(year, monthName, employeeId)[0], key)
    ensures Glob.Matches(InvalidationPatterns(year, monthName, employeeId)[1], key)
  {
    NarrowShapeWithinBroad(InvalidationBase(year, monthName), EmployeeSegment(employeeId), key);
  }

  /** A read key that the broad pattern matches has the pattern's month
      word, when both words are plain and the year has no star. */
  lemma MatchedKeyHasMonthWord(year: Json, invMonth: Option<string>, invEmployee: int,
                               readMonth: Option<string>, ids: seq<Json>, employeeId: int, limit: int, offset: int)
    requires Glob.Literal(Display(year))
    requires Glob.Literal(InvalidationMonthWord(invMonth)) && Text.ColonFree(InvalidationMonthWord(invMonth))
    requires Text.ColonFree(ReadMonthWord(readMonth))
    ensures Glob.Matches(InvalidationPatterns(year, invMonth, invEmployee)[1],
                         ReadKey(Display(year), readMonth, ids, employeeId, limit, offset))
            ==> ReadMonthWord(readMonth) == InvalidationMonthWord(invMonth)
  {
    var common := KeyPrefix + ":y" + Display(year) + ":m:";
    MonthBasePlain(Display(year));
    if Glob.Matches(InvalidationPatterns(year, invMonth, invEmployee)[1],
                    ReadKey(Display(year), readMonth, ids, employeeId, limit, offset)) {
      KeyTextWordFixed(common, ReadMonthWord(readMonth), InvalidationMonthWord(invMonth),
                       Display(JArr(ids)), EmployeeSegment(employeeId), Text.IntToString(limit), Text.IntToString(offset));
    }
  }

  /** Invalidating one month leaves the read keys of every other month in
      place: neither pattern matches them. */
  lemma InvalidationSparesOtherMonths(year: Json, invMonth: Option<string>, invEmployee: int,
                                      readMonth: Option<string>, ids: seq<Json>, employeeId: int, limit: int, offset: int)
    requires Glob.Literal(Display(year))
    requires Glob.Literal(InvalidationMonthWord(invMonth)) && Text.ColonFree(InvalidationMonthWord(invMonth))
    requires Text.ColonFree(ReadMonthWord(readMonth))
    requires ReadMonthWord(readMonth) != InvalidationMonthWord(invMonth)
    ensures !Glob.Matches(InvalidationPatterns(year, invMonth, invEmployee)[1],
                          ReadKey(Display(year), readMonth, ids, employeeId, limit, offset))
    ensures !Glob.Matches(InvalidationPatterns(year, invMonth, invEmployee)[0],
                          ReadKey(Display(year), readMonth, ids, employeeId, limit, offset))
  {
    var key := ReadKey(Display(year), readMonth, ids, employeeId, limit, offset);
    MatchedKeyHasMonthWord(year, invMonth, invEmployee, readMonth, ids, employeeId, limit, offset);
    if Glob.Matches(InvalidationPatterns(year, invMonth, invEmployee)[0], key) {
      NarrowWithinBroad(year, invMonth, invEmployee, key);
    }
  }

  lemma NumberIsPlain(n: int)
    ensures Glob.Literal(Display(JNum(n))) && Text.ColonFree(Display(JNum(n)))
  {
    Text.IntToStringColonFree(n);
    var d := Text.NatToString(if n < 0 then -n else n);
    assert forall i :: 0 <= i < |d| ==> Text.IsDigit(d[i]);
  }

  lemma NormalizesTo(name: string, word: string)
    requires Text.Trimmed(name) && Text.Lower(name) == word
    ensures NormalizeMonth(name) == word
  {
    Text.TrimKeepsTrimmed(name);
  }

  /** "Agu" and "Agustus" name the same month. */
  lemma AbbreviationSameMonth()
    ensures CanonicalMonth("Agu") == CanonicalMonth("Agustus") == Ok("Agustus")
  {
    AguWords();
    AgustusWords();
    assert MonthFor("agu") == Some("Agustus");
    assert MonthFor("agustus") == Some("Agustus");
  }

  /** A non-blank, already trimmed month gives its lower-case spelling as
      the word of both the read key and the invalidation pattern. */
  lemma MonthWordsOf(name: string, word: string)
    requires name != [] && Text.Trimmed(name) && Text.Lower(name) == word
    ensures NormalizeMonth(name) == word
    ensures ReadMonthWord(Some(name)) == word && InvalidationMonthWord(Some(name)) == word
  {
    Text.TrimKeepsTrimmed(name);
    NormalizesTo(name, word);
  }

  lemma AgustusWords()
    ensures NormalizeMonth("Agustus") == "agustus"
    ensures ReadMonthWord(Some("Agustus")) == "agustus" && InvalidationMonthWord(Some("Agustus")) == "agustus"
  {
    var name := "Agustus";
    assert name[0] == 'A' && name[|name| - 1] == 's';
    assert Text.Lower(name) == "agustus" by {
      var l := Text.Lower(name);
      assert |l| == 7;
      assert l[0] == 'a' && l[1] == 'g' && l[2] == 'u' && l[3] == 's' && l[4] == 't' && l[5] == 'u' && l[6] == 's';
    }
    MonthWordsOf(name, "agustus");
  }

  lemma AguWords()
    ensures NormalizeMonth("Agu") == "agu"
    ensures ReadMonthWord(Some("Agu")) == "agu"
  {
    var name := "Agu";
    assert name[0] == 'A' && name[|name| - 1] == 'u';
    assert Text.Lower(name) == "agu" by {
      var l := Text.Lower(name);
      assert |l| == 3;
      assert l[0] == 'a' && l[1] == 'g' && l[2] == 'u';
    }
    MonthWordsOf(name, "agu");
  }

  /** Yet the keys read under "Agu" survive invalidating "Agustus". */
  lemma AbbreviationSurvivesInvalidation(year: int, ids: seq<Json>, employeeId: int, limit: int, offset: int)
    ensures !Glob.Matches(InvalidationPatterns(JNum(year), Some("Agustus"), employeeId)[1],
                          ReadKey(Display(JNum(year)), Some("Agu"), ids, employeeId, limit, offset))
  {
    AguWords();
    AgustusWords();
    NumberIsPlain(year);
    InvalidationSparesOtherMonths(JNum(year), Some("Agustus"), employeeId, Some("Agu"), ids, employeeId, limit, offset);
  }

  /** Two read keys that differ only in the month agree exactly when their
      month words do. */
  lemma ReadKeyDeterminesMonthWord(tahun: string, m1: Option<string>, m2: Option<string>, ids: seq<Json>,
                                   employeeId: int, limit: int, offset: int)
    requires Text.ColonFree(ReadMonthWord(m1)) && Text.ColonFree(ReadMonthWord(m2))
    ensures ReadKey(tahun, m1, ids, employeeId, limit, offset) == ReadKey(tahun, m2, ids, employeeId, limit, offset)
            <==> ReadMonthWord(m1) == ReadMonthWord(m2)
  {
    var common := KeyPrefix + ":y" + tahun + ":m:";
    var p, e, l, o := Display(JArr(ids)), EmployeeSegment(employeeId), Text.IntToString(limit), Text.IntToString(offset);
    var w1, w2 := ReadMonthWord(m1), ReadMonthWord(m2);
    var rest := "p" + p + ":" + e + ":l" + l + ":o" + o;
    KeyTextSplit(common, w1, p, e, l, o);
    KeyTextSplit(common, w2, p, e, l, o);
    if ReadKey(tahun, m1, ids, employeeId, limit, offset) == ReadKey(tahun, m2, ids, employeeId, limit, offset) {
      assert (common + (w1 + ":" + rest))[|common|..] == w1 + ":" + rest;
      assert (common + (w2 + ":" + rest))[|common|..] == w2 + ":" + rest;
      Text.ColonSplit(w1, w2, rest, rest);
    }
  }

  /** So "Agu" and "Agustus" cache the same query under two keys. */
  lemma AbbreviationKeysDiffer(tahun: string, ids: seq<Json>, employeeId: int, limit: int, offset: int)
    ensures ReadKey(tahun, Some("Agu"), ids, employeeId, limit, offset)
         != ReadKey(tahun, Some("Agustus"), ids, employeeId, limit, offset)
  {
    AguWords();
    AgustusWords();
    ReadKeyDeterminesMonthWord(tahun, Some("Agu"), Some("Agustus"), ids, employeeId, limit, offset);
  }

  /** A blank month reads the whole year under `m:all`, but invalidating
      with the same blank month targets the empty word and misses them. */
  lemma BlankMonthMissesYearKeys(year: int, ids: seq<Json>, employeeId: int, limit: int, offset: int)
    ensures ReadMonthWord(Some(" ")) == "all" && InvalidationMonthWord(Some(" ")) == ""
    ensures !Glob.Matches(InvalidationPatterns(JNum(year), Some(" "), employeeId)[1],
                          ReadKey(Display(JNum(year)), Some(" "), ids, employeeId, limit, offset))
  {
    assert Text.TrimStart(" ") == "";
    assert Text.Trim(" ") == "";
    assert Text.Lower("") == "";
    NumberIsPlain(year);
    InvalidationSparesOtherMonths(JNum(year), Some(" "), employeeId, Some(" "), ids, employeeId, limit, offset);
  }

  // ---------------------------------------------------------------------
  // Period lookup.

  function PeriodCall(domain: seq<Term>): Call {
    Search(PeriodModel, domain, PeriodSearchLimit)
  }

  /** One `search` on the periods: the ids, or the error Odoo reported. */
  function SearchPeriods(env: Env, domain: seq<Term>): Result<seq<Json>> {
    var reply := env.odoo(PeriodCall(domain));
    if reply.error.Some? then Err(Failure(ErrorText(reply.error.value, "Odoo error (periode.payment)")))
    else Ok(AsList(reply.result))
  }

  /** A domain with the year filter added when a year is given. */
  function AddYear(domain: seq<Term>, tahun: Option<string>): seq<Term> {
    if tahun.Some? && tahun.value != "" then domain + [Term("tahun", "=", JStr(tahun.value))] else domain
  }

  /** The three month lookups, in the order they are tried. */
  function MonthDomains(monthFull: string, tahun: Option<string>): seq<seq<Term>> {
    [AddYear([Term("period_name", "=", JStr(monthFull))], tahun),
     AddYear([Term("period_name", "ilike", JStr(monthFull))], tahun),
     AddYear([Term("name", "ilike", JStr(monthFull))], tahun)]
  }

  function YearDomain(tahun: string): seq<Term> {
    [Term("tahun", "=", JStr(tahun))]
  }

  /** Tries the domains in order and stops at the first search that fails
      or finds ids; the last search is taken as it is.  The result and the
      searches made. */
  function FirstHit(env: Env, domains: seq<seq<Term>>): (res: (Result<seq<Json>>, seq<Call>))
    requires |domains| > 0
    ensures 1 <= |res.1| <= |domains|
    ensures forall i :: 0 <= i < |res.1| ==> res.1[i] == PeriodCall(domains[i])
    ensures forall i :: 0 <= i < |res.1| - 1 ==> SearchPeriods(env, domains[i]) == Ok([])
    ensures res.0 == SearchPeriods(env, domains[|res.1| - 1])
    ensures |res.1| < |domains| ==> res.0.Err? || res.0.value != []
    decreases |domains|
  {
    var r := SearchPeriods(env, domains[0]);
    if r.Err? || r.value != [] || |domains| == 1 then (r, [PeriodCall(domains[0])])
    else
      var rest := FirstHit(env, domains[1..]);
      (rest.0, [PeriodCall(domains[0])] + rest.1)
  }

  /** The period ids a payroll query runs on, and the searches made for
      them: by month when a month is given, otherwise every period of the
      year.  An unknown month fails before any search. */
  function PeriodLookup(env: Env, monthName: Option<string>, tahun: string): (Result<seq<Json>>, seq<Call>) {
    if HasMonth(monthName) then
      match CanonicalMonth(monthName.value)
      case Err(f) => (Err(f), [])
      case Ok(full) => FirstHit(env, MonthDomains(full, Some(tahun)))
    else FirstHit(env, [YearDomain(tahun)])
  }

  // ---------------------------------------------------------------------
  // Queries.

  /** The arguments of `getPayrollByMonthYear`; `None` is an omitted
      argument, and an employee id of 0 stands for none. */
  datatype PayrollQuery = PayrollQuery(monthName: Option<string>, year: Option<Json>, employeeId: int,
                                       limit: Option<int>, offset: Option<int>)

  /** `!year && year !== 0`. */
  predicate YearMissing(year: Option<Json>) {
    !Present(year) && year != Some(JNum(0))
  }

  function PayrollDomain(ids: seq<Json>, tahun: string, employeeId: int): seq<Term> {
    [Term("period_id", "in", JArr(ids)), Term("tahun", "=", JStr(tahun))]
      + (if employeeId != 0 then [Term("employee_id", "=", JNum(employeeId))] else [])
  }

  function RowsCall(q: PayrollQuery, tahun: string, ids: seq<Json>): Call {
    SearchRead(PayrollModel, PayrollDomain(ids, tahun, q.employeeId),
               Some(Window(q.limit.GetOr(DefaultLimit), q.offset.GetOr(DefaultOffset))))
  }

  function QueryKey(q: PayrollQuery, tahun: string, ids: seq<Json>): string {
    ReadKey(tahun, q.monthName, ids, q.employeeId, q.limit.GetOr(DefaultLimit), q.offset.GetOr(DefaultOffset))
  }

  /** `true` when `period.trim()` is a non-empty run of ASCII digits. */
  predicate IsNumeral(period: string) {
    var t := Text.Trim(period);
    t != [] && Text.IsDigits(t)
  }

  predicate Given(s: Option<string>) {
    s.Some? && s.value != ""
  }

  /** The outcome of a rows search: the origin's error, or its result
      with `null` read as no rows. */
  function RowsResult(env: Env, call: Call): Result<Json> {
    var reply := env.odoo(call);
    if reply.error.Some? then Err(Failure(ErrorText(reply.error.value, "Odoo error")))
    else Ok(Coalesce(reply.result, JArr([])))
  }

  /** The year and employee filters the flexible finder appends. */
  function Filters(tahun: Option<string>, employeeId: int): seq<Term> {
    (if Given(tahun) then [Term("tahun", "=", JStr(tahun.value))] else [])
      + (if employeeId != 0 then [Term("employee_id", "=", JNum(employeeId))] else [])
  }

  /** A year filter exactly when a year is given and an employee filter
      exactly when an employee is, and nothing else. */
  lemma FiltersExact(tahun: Option<string>, employeeId: int)
    ensures forall t :: Term("tahun", "=", JStr(t)) in Filters(tahun, employeeId) <==> Given(tahun) && t == tahun.value
    ensures forall e :: Term("employee_id", "=", JNum(e)) in Filters(tahun, employeeId) <==> employeeId != 0 && e == employeeId
    ensures |Filters(tahun, employeeId)| == (if Given(tahun) then 1 else 0) + (if employeeId != 0 then 1 else 0)
  {
  }

  function FlexibleCall(head: seq<Term>, tahun: Option<string>, employeeId: int, limit: int, offset: int): Call {
    SearchRead(PayrollModel, head + Filters(tahun, employeeId), Some(Window(limit, offset)))
  }

  /** A period lookup followed, when it found periods, by the rows search
      on them; an error or an empty lookup ends the search early. */
  predicate PeriodsThenRows(env: Env, lookup: (Result<seq<Json>>, seq<Call>), tahun: Option<string>, employeeId: int,
                            limit: int, offset: int, r: Result<Json>, calls: seq<Call>) {
    && (lookup.0.Err? ==> r == Err(lookup.0.fault) && calls == lookup.1)
    && (lookup.0.Ok? && lookup.0.value == [] ==> r == Ok(JArr([])) && calls == lookup.1)
    && (lookup.0.Ok? && lookup.0.value != [] ==>
          var call := FlexibleCall([Term("period_id", "in", JArr(lookup.0.value))], tahun, employeeId, limit, offset);
          calls == lookup.1 + [call] && r == RowsResult(env, call))
  }

  class PayrollService {
    const redis: Redis.RedisService<Json>

    constructor (redis: Redis.RedisService<Json>)
      ensures this.redis == redis
    {
      this.redis := redis;
    }

    /** The period ids of a month: the exact name, then a case-insensitive
        match on the period name, then on the record name. */
    method SearchPeriodIdsByMonth(env: Env, monthFull: string, tahun: Option<string>)
      returns (r: Result<seq<Json>>, calls: seq<Call>)
      ensures (r, calls) == FirstHit(env, MonthDomains(monthFull, tahun))
    {
      var domains := MonthDomains(monthFull, tahun);
      var rest := domains[1..];
      var last := rest[1..];
      assert |rest| == 2 && rest[0] == domains[1] && last == [domains[2]];
      assert FirstHit(env, last) == (SearchPeriods(env, domains[2]), [PeriodCall(domains[2])]);
      r := SearchPeriods(env, domains[0]);
      calls := [PeriodCall(domains[0])];
      if r.Err? || r.value != [] {
        return;
      }
      r := SearchPeriods(env, domains[1]);
      calls := calls + [PeriodCall(domains[1])];
      if r.Err? || r.value != [] {
        assert FirstHit(env, rest) == (r, [PeriodCall(domains[1])]);
        return;
      }
      r := SearchPeriods(env, domains[2]);
      calls := calls + [PeriodCall(domains[2])];
      assert FirstHit(env, rest) == (r, [PeriodCall(domains[1])] + [PeriodCall(domains[2])]);
      assert calls == [PeriodCall(domains[0])] + ([PeriodCall(domains[1])] + [PeriodCall(domains[2])]);
    }

    /** The period ids of a payroll query and the searches made for them. */
    method LookupPeriods(env: Env, monthName: Option<string>, tahun: string)
      returns (r: Result<seq<Json>>, calls: seq<Call>)
      ensures (r, calls) == PeriodLookup(env, monthName, tahun)
    {
      if HasMonth(monthName) {
        var full := CanonicalMonth(monthName.value);
        if full.Err? {
          return Err(full.fault), [];
        }
        r, calls := SearchPeriodIdsByMonth(env, full.value, Some(tahun));
      } else {
        r := SearchPeriods(env, YearDomain(tahun));
        calls := [PeriodCall(YearDomain(tahun))];
      }
    }

    /** The rows under `key` in the cache; on a miss, the rows `call` reads
        from the origin, stored under `key` for an hour. */
    method ReadThrough(env: Env, key: string, call: Call) returns (r: Result<Json>, asked: bool)
      modifies redis`store
      ensures var hit := old(redis.Cached(key, env.now));
              && asked == hit.None?
              && (hit.Some? ==> r == Ok(hit.value) && redis.store == old(redis.store))
              && (hit.None? ==> r == RowsResult(env, call))
              && (hit.None? && r.Err? ==> redis.store == old(redis.store))
              && (hit.None? && r.Ok? ==> redis.store == old(redis.AfterSet(key, r.value, Some(CacheTtl), env.now)))
    {
      var cached := redis.Get(key, env.now);
      if cached.Some? {
        return Ok(cached.value), false;
      }
      asked := true;
      r := RowsResult(env, call);
      if r.Ok? {
        redis.Set(key, r.value, Some(CacheTtl), env.now);
      }
    }

    method GetPayrollByMonthYear(env: Env, q: PayrollQuery) returns (r: Result<Json>, calls: seq<Call>)
      modifies redis`store
      ensures YearMissing(q.year) ==>
                r == Err(BadRequest(YearRequired)) && calls == [] && redis.store == old(redis.store)
      ensures !YearMissing(q.year) ==>
                var lookup := PeriodLookup(env, q.monthName, Display(q.year.value));
                lookup.0.Err? || lookup.0.value == [] ==>
                  && r == (if lookup.0.Err? then Err(lookup.0.fault) else Ok(JArr([])))
                  && calls == lookup.1 && redis.store == old(redis.store)
      ensures !YearMissing(q.year) ==>
                var tahun := Display(q.year.value);
                var lookup := PeriodLookup(env, q.monthName, tahun);
                lookup.0.Ok? && lookup.0.value != [] ==>
                  var key := QueryKey(q, tahun, lookup.0.value);
                  var call := RowsCall(q, tahun, lookup.0.value);
                  var hit := old(redis.Cached(key, env.now));
                  && (hit.Some? ==> r == Ok(hit.value) && calls == lookup.1 && redis.store == old(redis.store))
                  && (hit.None? ==> calls == lookup.1 + [call] && r == RowsResult(env, call))
                  && (hit.None? && r.Err? ==> redis.store == old(redis.store))
                  && (hit.None? && r.Ok? ==> redis.store == old(redis.AfterSet(key, r.value, Some(CacheTtl), env.now)))
    {
      if YearMissing(q.year) {
        return Err(BadRequest(YearRequired)), [];
      }
      var tahun := Display(q.year.value);
      var periods;
      periods, calls := LookupPeriods(env, q.monthName, tahun);
      if periods.Err? {
        return Err(periods.fault), calls;
      }
      if periods.value == [] {
        return Ok(JArr([])), calls;
      }
      var key := QueryKey(q, tahun, periods.value);
      var call := RowsCall(q, tahun, periods.value);
      var asked;
      r, asked := ReadThrough(env, key, call);
      if asked {
        calls := calls + [call];
      }
    }

    /** The rows search behind a period filter: the year and employee
        filters are appended, then the search runs. */
    method SearchRows(env: Env, head: seq<Term>, tahun: Option<string>, employeeId: int, limit: int, offset: int)
      returns (r: Result<Json>, call: Call)
      ensures call == FlexibleCall(head, tahun, employeeId, limit, offset) && r == RowsResult(env, call)
    {
      var domain := head;
      if Given(tahun) {
        domain := domain + [Term("tahun", "=", JStr(tahun.value))];
      }
      if employeeId != 0 {
        domain := domain + [Term("employee_id", "=", JNum(employeeId))];
      }
      assert domain == head + Filters(tahun, employeeId);
      call := SearchRead(PayrollModel, domain, Some(Window(limit, offset)));
      r := RowsResult(env, call);
    }

    /** A period lookup, then the rows of the periods it found. */
    method RowsOfPeriods(env: Env, pids: Result<seq<Json>>, pcalls: seq<Call>, tahun: Option<string>, employeeId: int,
                         limit: int, offset: int)
      returns (r: Result<Json>, calls: seq<Call>)
      ensures PeriodsThenRows(env, (pids, pcalls), tahun, employeeId, limit, offset, r, calls)
    {
      if pids.Err? {
        return Err(pids.fault), pcalls;
      }
      if pids.value == [] {
        return Ok(JArr([])), pcalls;
      }
      var call;
      r, call := SearchRows(env, [Term("period_id", "in", JArr(pids.value))], tahun, employeeId, limit, offset);
      calls := pcalls + [call];
    }

    /** The uncached finder: a numeric period filters on that period id
        directly, a month name goes through the month lookup, and a year
        alone through every period of the year. */
    method FindByEmployeePeriodYearFlexible(env: Env, employeeId: int, period: Option<string>, tahun: Option<string>,
                                            limit: int, offset: int)
      returns (r: Result<Json>, calls: seq<Call>)
      ensures Given(period) && IsNumeral(period.value) ==>
                var call := FlexibleCall([Term("period_id", "=", JNum(Text.DigitsValue(Text.Trim(period.value))))],
                                         tahun, employeeId, limit, offset);
                calls == [call] && r == RowsResult(env, call)
      ensures Given(period) && !IsNumeral(period.value) && CanonicalMonth(period.value).Err? ==>
                r == Err(CanonicalMonth(period.value).fault) && calls == []
      ensures Given(period) && !IsNumeral(period.value) && CanonicalMonth(period.value).Ok? ==>
                PeriodsThenRows(env, FirstHit(env, MonthDomains(CanonicalMonth(period.value).value, tahun)),
                                tahun, employeeId, limit, offset, r, calls)
      ensures !Given(period) && Given(tahun) ==>
                PeriodsThenRows(env, FirstHit(env, [YearDomain(tahun.value)]), tahun, employeeId, limit, offset, r, calls)
      ensures !Given(period) && !Given(tahun) ==>
                var call := FlexibleCall([], tahun, employeeId, limit, offset);
                calls == [call] && r == RowsResult(env, call)
    {
      var call;
      if Given(period) {
        if IsNumeral(period.value) {
          r, call := SearchRows(env, [Term("period_id", "=", JNum(Text.DigitsValue(Text.Trim(period.value))))],
                                tahun, employeeId, limit, offset);
          calls := [call];
        } else {
          var full := CanonicalMonth(period.value);
          if full.Err? {
            return Err(full.fault), [];
          }
          var pids, pcalls := SearchPeriodIdsByMonth(env, full.value, tahun);
          r, calls := RowsOfPeriods(env, pids, pcalls, tahun, employeeId, limit, offset);
        }
      } else if Given(tahun) {
        var pids := SearchPeriods(env, YearDomain(tahun.value));
        assert FirstHit(env, [YearDomain(tahun.value)]) == (pids, [PeriodCall(YearDomain(tahun.value))]);
        r, calls := RowsOfPeriods(env, pids, [PeriodCall(YearDomain(tahun.value))], tahun, employeeId, limit, offset);
      } else {
        r, call := SearchRows(env, [], tahun, employeeId, limit, offset);
        calls := [call];
      }
    }

    /** Deletes the month's (or the whole year's) cached queries: first the
        pattern of one employee, then every employee.  `scans` are the
        server's answers to each pattern's SCAN loop; a failed deletion is
        ignored. */
    method InvalidateMonthCache(year: Json, monthName: Option<string>, employeeId: int, now: int,
                                scans: seq<seq<Redis.ScanReply>>)
      requires |scans| == 2 && forall i :: 0 <= i < |scans| ==> Redis.IsScanRun(scans[i])
      modifies redis`store
      ensures redis.store == if redis.up then RemoveEach(old(redis.store), scans) else old(redis.store)
    {
      var patterns := InvalidationPatterns(year, monthName, employeeId);
      for i := 0 to |patterns|
        invariant redis.store == if redis.up then RemoveEach(old(redis.store), scans[..i]) else old(redis.store)
      {
        assert scans[..i + 1][..i] == scans[..i];
        var _ := redis.DelPattern(patterns[i], now, scans[i]);
      }
      assert scans[..2] == scans;
    }
  }

  /** The store after each SCAN run's keys are deleted in turn. */
  function RemoveEach(store: Redis.Store<Json>, scans: seq<seq<Redis.ScanReply>>): Redis.Store<Json> {
    if scans == [] then store
    else Redis.Remove(RemoveEach(store, scans[..|scans| - 1]), Redis.Visited(scans[|scans| - 1]))
  }

  /** After a completed broad deletion, no read key of the invalidated year
      and month is visible any more, for any employee, period list or page. */
  lemma InvalidationClearsMonth(store: Redis.Store<Json>, year: Json, monthName: Option<string>, invEmployee: int,
                                now: int, scans: seq<seq<Redis.ScanReply>>,
                                readMonth: Option<string>, ids: seq<Json>, employeeId: int, limit: int, offset: int)
    requires |scans| == 2 && Redis.IsScanRun(scans[1]) && Redis.Completed(scans[1])
    requires Redis.ScanCovers(RemoveEach(store, scans[..1]), InvalidationPatterns(year, monthName, invEmployee)[1],
                              now, scans[1])
    requires ReadMonthWord(readMonth) == InvalidationMonthWord(monthName)
    ensures Redis.Lookup(RemoveEach(store, scans), ReadKey(Display(year), readMonth, ids, employeeId, limit, offset), now)
            == None
  {
    var mid := RemoveEach(store, scans[..1]);
    var pattern := InvalidationPatterns(year, monthName, invEmployee)[1];
    var key := ReadKey(Display(year), readMonth, ids, employeeId, limit, offset);
    assert scans[..2] == scans;
    assert scans[..2][..1] == scans[..1];
    InvalidationCoversReadKeys(year, monthName, invEmployee, readMonth, ids, employeeId, limit, offset);
    Redis.DelPatternClears(mid, pattern, now, scans[1]);
    assert key !in Redis.LiveMatches(Redis.Remove(mid, Redis.Visited(scans[1])), pattern, now);
  }

  /** When every SCAN batch holds only keys matching its pattern, the read
      keys of another month keep their entries. */
  lemma InvalidationKeepsOtherMonths(store: Redis.Store<Json>, year: Json, monthName: Option<string>, invEmployee: int,
                                     now: int, scans: seq<seq<Redis.ScanReply>>,
                                     readMonth: Option<string>, ids: seq<Json>, employeeId: int, limit: int, offset: int)
    requires |scans| == 2
    requires Redis.ScanSound(store, InvalidationPatterns(year, monthName, invEmployee)[0], now, scans[0])
    requires Redis.ScanSound(RemoveEach(store, scans[..1]), InvalidationPatterns(year, monthName, invEmployee)[1],
                             now, scans[1])
    requires Glob.Literal(Display(year))
    requires Glob.Literal(InvalidationMonthWord(monthName)) && Text.ColonFree(InvalidationMonthWord(monthName))
    requires Text.ColonFree(ReadMonthWord(readMonth))
    requires ReadMonthWord(readMonth) != InvalidationMonthWord(monthName)
    requires ReadKey(Display(year), readMonth, ids, employeeId, limit, offset) in store
    ensures var key := ReadKey(Display(year), readMonth, ids, employeeId, limit, offset);
            key in RemoveEach(store, scans) && RemoveEach(store, scans)[key] == store[key]
  {
    var key := ReadKey(Display(year), readMonth, ids, employeeId, limit, offset);
    var ps := InvalidationPatterns(year, monthName, invEmployee);
    InvalidationSparesOtherMonths(year, monthName, invEmployee, readMonth, ids, employeeId, limit, offset);
    assert scans[..1][..0] == [];
    assert RemoveEach(store, scans[..1]) == Redis.Remove(store, Redis.Visited(scans[0]));
    Redis.DelPatternSpares(store, ps[0], now, scans[0], key);
    var mid := RemoveEach(store, scans[..1]);
    Redis.DelPatternSpares(mid, ps[1], now, scans[1], key);
    assert scans[..2] == scans;
    assert scans[..2][..1] == scans[..1];
  }
}

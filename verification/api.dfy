/** The request handlers of api/main.go with the MongoDB collection replaced
    by an in-memory table (class UrlTable). Each handler is a method that
    answers with an HTTP status; a failing store call is an input flag, the
    random bytes, the new record's ObjectID and the current time are
    parameters. */
module Api {

  import opened Wrappers
  import opened ShortCodeHelpers
  import opened Models

  /** The prefix of every short URL the shorten handler hands out. */
  const BaseURL: string := "http://localhost:8081/"

  /** The length of a generated short code. */
  const GeneratedLength: int := 6

  /** getEnvOrDefault: the variable's value whenever it is set, even to the
      empty string, and the default only when it is not set at all. */
  function GetEnvOrDefault(env: map<string, string>, key: string, defaultValue: string): (r: string)
    ensures key in env ==> r == env[key]
    ensures key !in env ==> r == defaultValue
  {
    if key in env then env[key] else defaultValue
  }

  /** The legacy generateShortCode: no length guard (a negative length makes
      Go's make panic, so the length is a nat here), the random buffer is
      overwritten in place with the symbols, and a failing entropy source
      yields the empty string instead of an error. */
  method LegacyGenerateShortCode(length: nat, source: seq<byte>) returns (code: string)
    ensures |source| < length ==> code == ""
    ensures |source| >= length ==> code == Encode(source[..length])
  {
    var b := new byte[length];
    if |source| < length {
      return "";
    }
    forall i | 0 <= i < length {
      b[i] := source[i];
    }
    CharsetAlphabet();
    for i := 0 to length
      invariant forall j :: 0 <= j < i ==> b[j] as int == Symbol(source[j]) as int
      invariant forall j :: i <= j < length ==> b[j] == source[j]
    {
      var symbol := Charset[b[i] as int % |Charset|];
      assert IsAlphanumeric(symbol);
      b[i] := symbol as int as byte;
    }
    code := seq(length, i requires 0 <= i < length reads b => b[i] as int as char);
    forall i | 0 <= i < length ensures code[i] == Encode(source[..length])[i] {
      EncodeAt(source[..length], i);
    }
  }

  /** HTTP statuses the handlers answer with. StillRetrying is not a status:
      it stands for a shorten request whose unbounded retry loop has not
      produced an answer within the random draws supplied. */
  datatype Status =
    | OK                   // 200
    | MovedPermanently     // 301
    | BadRequest           // 400
    | NotFound             // 404
    | Conflict             // 409
    | InternalServerError  // 500
    | StillRetrying

  /** The body of POST /shorten. `bindingOk` is the verdict of the JSON
      binding and of the `url` validator on `long_url`. */
  datatype ShortenRequest = ShortenRequest(bindingOk: bool, longURL: string, shortCode: Option<string>)

  /** The body of PUT /urls/:shortCode; `bindingOk` is the JSON binding's
      verdict. */
  datatype EditRequest = EditRequest(bindingOk: bool, longURL: string)

  /** What GET /:shortCode/stats reports about a record. */
  datatype Stats = Stats(longURL: string, shortCode: string, clicks: int64, createdAt: Time, lastClickedAt: Option<Time>)

  /** One turn of the generation loop: the random bytes it draws and whether
      its existence count fails. */
  datatype Attempt = Attempt(random: seq<byte>, countFails: bool)

  /** How the generation loop ends. */
  datatype RetryOutcome = Free(candidate: string) | GenerateError | CountError | Exhausted

  /** A shorten request passes binding: the JSON decoded, `long_url` is
      present (the `required` rule) and a URL (the `url` rule). */
  predicate BindsShorten(req: ShortenRequest) {
    req.bindingOk && req.longURL != ""
  }

  /** The request names a custom code: the pointer is non-nil and not "". */
  predicate HasCustomCode(req: ShortenRequest) {
    req.shortCode.Some? && req.shortCode.value != ""
  }

  /** The generation loop over a table: draw a code of length 6, stop with
      500 on a generator or count error, stop at the first code not in the
      table, and otherwise draw again; running out of draws is Exhausted. */
  function Retry(table: Table, attempts: seq<Attempt>): (r: RetryOutcome)
    ensures r.Free? ==> r.candidate !in table && |r.candidate| == GeneratedLength
    ensures r.Free? ==> forall ch :: ch in r.candidate ==> IsAlphanumeric(ch)
    decreases |attempts|
  {
    if attempts == [] then Exhausted
    else
      GenerateProperties(GeneratedLength, attempts[0].random);
      var (code, err) := Generate(GeneratedLength, attempts[0].random);
      if err.Some? then GenerateError
      else if attempts[0].countFails then CountError
      else if code !in table then Free(code)
      else Retry(table, attempts[1..])
  }

  /** The loop has no bound: it is still running exactly when every draw
      so far succeeded, its count succeeded, and its code was taken. */
  lemma {:induction false} RetryExhausted(table: Table, attempts: seq<Attempt>)
    ensures Retry(table, attempts) == Exhausted <==>
            forall i :: 0 <= i < |attempts| ==>
              && |attempts[i].random| >= GeneratedLength
              && !attempts[i].countFails
              && Generate(GeneratedLength, attempts[i].random).0 in table
    decreases |attempts|
  {
    if attempts != [] {
      GenerateProperties(GeneratedLength, attempts[0].random);
      RetryExhausted(table, attempts[1..]);
      assert forall i :: 1 <= i < |attempts| ==> attempts[1..][i - 1] == attempts[i];
    }
  }

  /** The outcome of inserting the record the shorten handler builds for
      `code`: 200 with its short URL and the record stored under `code`, or
      500 and no change when the store fails or an index rejects it. */
  ghost predicate InsertOutcome(before: Table, after: Table, status: Status, shortURL: string,
                                code: string, longURL: string, id: ObjectId, now: Time, insertFails: bool)
  {
    var u := NewURL(id, code, BaseURL + code, longURL, now);
    if !insertFails && InsertOne(before, u).Some? then
      status == OK && shortURL == BaseURL + code && after == before[code := u]
    else
      status == InternalServerError && shortURL == "" && after == before
  }

  /** The URL collection. */
  class UrlTable {

    var records: Table

    /** The indexes hold, every short URL is the base URL followed by its
        record's code, and no click count is negative. */
    ghost predicate Valid()
      reads this
    {
      && Indexed(records)
      && (forall c :: c in records ==> records[c].shortURL == BaseURL + c && records[c].clicks >= 0)
    }

    constructor ()
      ensures Valid() && records == map[]
    {
      records := map[];
    }

    /** CountDocuments with the filter `{short_code: code}`: the number of
        records whose `shortCode` field is `code`, which the unique index
        keeps at 0 or 1. */
    function CountDocuments(code: string): (n: nat)
      requires Valid()
      reads this
      ensures n == |set c | c in records && records[c].shortCode == code|
      ensures n <= 1 && (n == 0 <==> code !in records)
    {
      if code in records then
        assert (set c | c in records && records[c].shortCode == code) == {code};
        1
      else
        assert (set c | c in records && records[c].shortCode == code) == {};
        0
    }

    /** The generation loop of handleShortenURL, run against the table. */
    method ResolveCode(attempts: seq<Attempt>) returns (r: RetryOutcome)
      requires Valid()
      ensures r == Retry(records, attempts)
    {
      var i := 0;
      while i < |attempts|
        invariant 0 <= i <= |attempts|
        invariant Retry(records, attempts) == Retry(records, attempts[i..])
      {
        assert attempts[i..][0] == attempts[i] && attempts[i..][1..] == attempts[i + 1..];
        var candidate, err := GenerateShortCode(GeneratedLength, attempts[i].random);
        if err.Some? {
          return GenerateError;
        }
        if attempts[i].countFails {
          return CountError;
        }
        if CountDocuments(candidate) == 0 {
          return Free(candidate);
        }
        i := i + 1;
      }
      return Exhausted;
    }

    /** The tail of handleShortenURL: build the record for `code` and insert
        it. */
    method InsertNew(code: string, longURL: string, id: ObjectId, now: Time, insertFails: bool)
      returns (status: Status, shortURL: string)
      requires Valid()
      modifies this
      ensures Valid()
      ensures InsertOutcome(old(records), records, status, shortURL, code, longURL, id, now, insertFails)
    {
      var u := NewURL(id, code, BaseURL + code, longURL, now);
      var inserted := InsertOne(records, u);
      if insertFails || inserted.None? {
        return InternalServerError, "";
      }
      InsertKeepsIndexed(records, u);
      records := inserted.value;
      return OK, u.shortURL;
    }

    /** handleShortenURL as written. A custom code is checked and used; in
        the generated branch the loop's candidate is bound to a new variable
        that shadows the outer one, so the record is stored under the outer
        code, which is still "". */
    method ShortenURL(req: ShortenRequest, countFails: bool, attempts: seq<Attempt>,
                      id: ObjectId, now: Time, insertFails: bool)
      returns (status: Status, shortURL: string)
      requires Valid()
      modifies this
      ensures Valid()
      ensures ClicksNeverDecrease(old(records), records)
      ensures !BindsShorten(req) ==> status == BadRequest && shortURL == "" && records == old(records)
      ensures BindsShorten(req) && HasCustomCode(req) && countFails ==>
                status == InternalServerError && shortURL == "" && records == old(records)
      ensures BindsShorten(req) && HasCustomCode(req) && !countFails && req.shortCode.value in old(records) ==>
                status == Conflict && shortURL == "" && records == old(records)
      ensures BindsShorten(req) && HasCustomCode(req) && !countFails && req.shortCode.value !in old(records) ==>
                InsertOutcome(old(records), records, status, shortURL, req.shortCode.value, req.longURL, id, now, insertFails)
      ensures BindsShorten(req) && !HasCustomCode(req) ==>
                match Retry(old(records), attempts)
                case Free(_) => InsertOutcome(old(records), records, status, shortURL, "", req.longURL, id, now, insertFails)
                case Exhausted => status == StillRetrying && shortURL == "" && records == old(records)
                case _ => status == InternalServerError && shortURL == "" && records == old(records)
    {
      if !BindsShorten(req) {
        return BadRequest, "";
      }
      var shortCode := "";
      if HasCustomCode(req) {
        if countFails {
          return InternalServerError, "";
        }
        if CountDocuments(req.shortCode.value) > 0 {
          return Conflict, "";
        }
        shortCode := req.shortCode.value;
      } else {
        var outcome := ResolveCode(attempts);
        match outcome
        case Free(_) =>
        case Exhausted =>
          return StillRetrying, "";
        case _ =>
          return InternalServerError, "";
      }
      status, shortURL := InsertNew(shortCode, req.longURL, id, now, insertFails);
    }

    /** handleShortenURL as evidently intended: the generated branch stores
        the loop's free candidate, a fresh six-symbol code. */
    method ShortenURLIntended(req: ShortenRequest, countFails: bool, attempts: seq<Attempt>,
                              id: ObjectId, now: Time, insertFails: bool)
      returns (status: Status, shortURL: string)
      requires Valid()
      modifies this
      ensures Valid()
      ensures ClicksNeverDecrease(old(records), records)
      ensures !BindsShorten(req) ==> status == BadRequest && shortURL == "" && records == old(records)
      ensures BindsShorten(req) && HasCustomCode(req) && countFails ==>
                status == InternalServerError && shortURL == "" && records == old(records)
      ensures BindsShorten(req) && HasCustomCode(req) && !countFails && req.shortCode.value in old(records) ==>
                status == Conflict && shortURL == "" && records == old(records)
      ensures BindsShorten(req) && HasCustomCode(req) && !countFails && req.shortCode.value !in old(records) ==>
                InsertOutcome(old(records), records, status, shortURL, req.shortCode.value, req.longURL, id, now, insertFails)
      ensures BindsShorten(req) && !HasCustomCode(req) ==>
                match Retry(old(records), attempts)
                case Free(c) => InsertOutcome(old(records), records, status, shortURL, c, req.longURL, id, now, insertFails)
                case Exhausted => status == StillRetrying && shortURL == "" && records == old(records)
                case _ => status == InternalServerError && shortURL == "" && records == old(records)
      ensures BindsShorten(req) && !HasCustomCode(req) && status == OK ==>
                exists c :: c !in old(records) && |c| == GeneratedLength &&
                  (forall ch :: ch in c ==> IsAlphanumeric(ch)) &&
                  records == old(records)[c := NewURL(id, c, BaseURL + c, req.longURL, now)]
    {
      if !BindsShorten(req) {
        return BadRequest, "";
      }
      var shortCode := "";
      if HasCustomCode(req) {
        if countFails {
          return InternalServerError, "";
        }
        if CountDocuments(req.shortCode.value) > 0 {
          return Conflict, "";
        }
        shortCode := req.shortCode.value;
      } else {
        var outcome := ResolveCode(attempts);
        match outcome
        case Free(c) =>
          shortCode := c;
        case Exhausted =>
          return StillRetrying, "";
        case _ =>
          return InternalServerError, "";
      }
      status, shortURL := InsertNew(shortCode, req.longURL, id, now, insertFails);
    }

    /** handleRedirect: an unknown code (or a failing lookup) is 404 with no
        change; a known one is 301 to its long URL, and the record gets one
        more click and the click time unless the update fails, which is only
        logged. The update fails in particular when the int64 counter is
        at its maximum, since the store refuses an overflowing increment. */
    method Redirect(code: string, findFails: bool, updateFails: bool, now: Time)
      returns (status: Status, location: string)
      requires Valid()
      modifies this
      ensures Valid()
      ensures ClicksNeverDecrease(old(records), records)
      ensures status == MovedPermanently <==> !findFails && code in old(records)
      ensures status != MovedPermanently ==> status == NotFound && location == "" && records == old(records)
      ensures status == MovedPermanently ==>
                location == old(records)[code].longURL &&
                records == if !updateFails && old(records)[code].clicks < MaxInt64
                           then old(records)[code := Clicked(old(records)[code], now)]
                           else old(records)
    {
      if findFails || code !in records {
        return NotFound, "";
      }
      var url := records[code];
      if !updateFails && url.clicks < MaxInt64 {
        var clicked := Clicked(url, now);
        records := records[code := clicked];
      }
      return MovedPermanently, url.longURL;
    }

    /** handleGetStats: read-only; 404 for an unknown code or a failing
        lookup, otherwise 200 with the record's reported fields. */
    method GetStats(code: string, findFails: bool) returns (status: Status, stats: Option<Stats>)
      requires Valid()
      ensures status == OK <==> !findFails && code in records
      ensures status != OK ==> status == NotFound && stats.None?
      ensures status == OK ==>
                var u := records[code];
                stats == Some(Stats(u.longURL, code, u.clicks, u.createdAt, u.lastClickedAt))
    {
      if findFails || code !in records {
        return NotFound, None;
      }
      var u := records[code];
      return OK, Some(Stats(u.longURL, u.shortCode, u.clicks, u.createdAt, u.lastClickedAt));
    }

    /** handleListURLs: read-only; 500 when the query or the cursor fails,
        otherwise 200 with every record exactly once, in no particular
        order. */
    method ListURLs(readFails: bool) returns (status: Status, urls: seq<URL>)
      requires Valid()
      ensures status == OK <==> !readFails
      ensures status != OK ==> status == InternalServerError && urls == []
      ensures status == OK ==> |urls| == |records|
      ensures status == OK ==> forall i :: 0 <= i < |urls| ==>
                urls[i].shortCode in records && records[urls[i].shortCode] == urls[i]
      ensures status == OK ==> forall c :: c in records ==> records[c] in urls
      ensures status == OK ==> forall i, j :: 0 <= i < j < |urls| ==> urls[i].shortCode != urls[j].shortCode
    {
      if readFails {
        return InternalServerError, [];
      }
      var table := records;
      var pending := table.Keys;
      urls := [];
      while pending != {}
        invariant pending <= table.Keys
        invariant |urls| + |pending| == |table.Keys|
        invariant forall i :: 0 <= i < |urls| ==>
                    urls[i].shortCode in table && urls[i].shortCode !in pending && table[urls[i].shortCode] == urls[i]
        invariant forall c :: c in table && c !in pending ==> table[c] in urls
        invariant forall i, j :: 0 <= i < j < |urls| ==> urls[i].shortCode != urls[j].shortCode
        decreases pending
      {
        var c :| c in pending;
        assert table[c].shortCode == c;
        urls := urls + [table[c]];
        pending := pending - {c};
      }
      return OK, urls;
    }

    /** handleEditURL: an undecodable body or an empty long URL is 400 and a
        failing update 500, both with no change. Otherwise only that
        record's long URL is set; the answer is 404 when nothing was
        modified, which covers both an unknown code and an unchanged value,
        and 200 otherwise. */
    method EditURL(code: string, req: EditRequest, updateFails: bool) returns (status: Status)
      requires Valid()
      modifies this
      ensures Valid()
      ensures ClicksNeverDecrease(old(records), records)
      ensures !req.bindingOk || req.longURL == "" ==> status == BadRequest && records == old(records)
      ensures req.bindingOk && req.longURL != "" && updateFails ==>
                status == InternalServerError && records == old(records)
      ensures req.bindingOk && req.longURL != "" && !updateFails ==>
                (status == OK <==> code in old(records) && old(records)[code].longURL != req.longURL)
      ensures req.bindingOk && req.longURL != "" && !updateFails && status != OK ==>
                status == NotFound && records == old(records)
      ensures status == OK ==> records == old(records)[code := old(records)[code].(longURL := req.longURL)]
    {
      if !req.bindingOk || req.longURL == "" {
        return BadRequest;
      }
      if updateFails {
        return InternalServerError;
      }
      var modified := 0;
      if code in records && records[code].longURL != req.longURL {
        records := records[code := records[code].(longURL := req.longURL)];
        modified := 1;
      }
      if modified == 0 {
        return NotFound;
      }
      return OK;
    }

    /** handleDeleteURL: removes exactly the record with that code and
        answers 200; an unknown code makes the store report an error, so it
        is 500 like a failing store, with no change. */
    method DeleteURL(code: string, deleteFails: bool) returns (status: Status)
      requires Valid()
      modifies this
      ensures Valid()
      ensures ClicksNeverDecrease(old(records), records)
      ensures status == OK <==> !deleteFails && code in old(records)
      ensures status == OK ==> records == old(records) - {code}
      ensures status != OK ==> status == InternalServerError && records == old(records)
    {
      if deleteFails || code !in records {
        return InternalServerError;
      }
      records := records - {code};
      return OK;
    }
  }
}

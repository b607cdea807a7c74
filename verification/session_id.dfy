/**
 * The per-account session identifier of the vault (`getSessionId`).
 *
 * A read-or-create over the cookie jar: the identifier is stored under
 * "session-" + accountId; a non-empty stored value is returned as it is,
 * otherwise a fresh identifier is drawn, written and returned. Whenever
 * reading or writing the jar throws, the caller gets a brand-new identifier
 * that is never persisted.
 */
module SessionId {
  import opened Wrappers
  import opened Uuid

  const Prefix: string := "session-"

  /** The cookie name under which an account's session identifier lives. */
  function LookupKey(accountId: string): (key: string)
    ensures |key| == |Prefix| + |accountId|
    ensures key[..|Prefix|] == Prefix && key[|Prefix|..] == accountId
  {
    Prefix + accountId
  }

  /** Different accounts never share a cookie name. */
  lemma LookupKeyInjective(a: string, b: string)
    requires LookupKey(a) == LookupKey(b)
    ensures a == b
  {
  }

  /**
   * What the jar holds under `key`, with a missing entry read as "" — both
   * are falsy, so `cookieData[lookupKey] || null` treats them alike.
   */
  function Stored(entries: map<string, string>, key: string): (v: string)
    ensures v != "" ==> key in entries && entries[key] == v
    ensures key in entries && entries[key] != "" ==> v == entries[key]
  {
    if key in entries then entries[key] else ""
  }

  /**
   * What becomes of an assignment to `document.cookie`: it throws, it is
   * accepted without being kept (a browser that blocks the cookie), or the
   * cookie is kept.
   */
  datatype WriteMode = Throws | Ignored | Kept

  /**
   * The outcome of one call: the identifier returned, the jar's entries
   * afterwards, and how many identifiers were drawn from the generator.
   */
  datatype Effect = Effect(sessionId: string, entries: map<string, string>, drawn: nat)

  /**
   * One call of `getSessionId`, given the jar's entries, whether reading
   * the jar succeeds, what becomes of a write, and the next two identifiers the generator
   * would hand out. A failing read draws once; a failing write draws twice,
   * because the handler draws again and returns that second identifier.
   */
  function Call(entries: map<string, string>, readable: bool, write: WriteMode,
                accountId: string, first: string, second: string): (e: Effect)
    ensures e.drawn <= 2
    ensures e.entries == entries || e.entries == entries[LookupKey(accountId) := e.sessionId]
    ensures e.drawn == 0 <==> readable && Stored(entries, LookupKey(accountId)) != ""
    ensures e.drawn == 1 ==> e.sessionId == first
    ensures e.drawn == 2 ==> e.sessionId == second
    ensures e.entries != entries ==> readable && write.Kept?
  {
    var key := LookupKey(accountId);
    if !readable then Effect(first, entries, 1)
    else if Stored(entries, key) != "" then Effect(entries[key], entries, 0)
    else if write.Throws? then Effect(second, entries, 2)
    else if write.Ignored? then Effect(first, entries, 1)
    else Effect(first, entries[key := first], 1)
  }

  /** A stored non-empty identifier is returned, and nothing is drawn or written. */
  lemma ReturnsStored(entries: map<string, string>, write: WriteMode, accountId: string, first: string, second: string)
    requires LookupKey(accountId) in entries && entries[LookupKey(accountId)] != ""
    ensures var e := Call(entries, true, write, accountId, first, second);
      e.sessionId == entries[LookupKey(accountId)] && e.entries == entries && e.drawn == 0
  {
  }

  /**
   * With a jar that keeps writes, a missing or empty entry is treated alike:
   * the first fresh identifier is written under the key, overwriting an
   * empty value, and returned.
   */
  lemma CreatesWhenAbsentOrEmpty(entries: map<string, string>, accountId: string, first: string, second: string)
    requires Stored(entries, LookupKey(accountId)) == ""
    ensures var e := Call(entries, true, Kept, accountId, first, second);
      e.sessionId == first && e.drawn == 1 &&
      e.entries == entries[LookupKey(accountId) := first] &&
      LookupKey(accountId) in e.entries && e.entries[LookupKey(accountId)] == e.sessionId
  {
  }

  /** No entry other than the account's own key is added, removed or changed. */
  lemma OnlyKeyChanges(entries: map<string, string>, readable: bool, write: WriteMode,
                       accountId: string, first: string, second: string, k: string)
    requires k != LookupKey(accountId)
    ensures var e := Call(entries, readable, write, accountId, first, second);
      (k in e.entries <==> k in entries) && (k in entries ==> e.entries[k] == entries[k])
  {
  }

  /**
   * Idempotence: after a call on a readable jar that keeps writes, a second call for the same
   * account returns the same identifier, draws nothing and writes nothing.
   */
  lemma Idempotent(entries: map<string, string>, accountId: string,
                    first: string, second: string, third: string, fourth: string)
    requires first != ""
    ensures var e1 := Call(entries, true, Kept, accountId, first, second);
      var e2 := Call(e1.entries, true, Kept, accountId, third, fourth);
      e2.sessionId == e1.sessionId && e2.entries == e1.entries && e2.drawn == 0
  {
  }

  /**
   * When reading or writing throws, the jar is left as it was and the
   * identifier returned is one just drawn: the first draw when the read
   * fails, the second when the write fails.
   */
  lemma FailureDoesNotPersist(entries: map<string, string>, readable: bool, write: WriteMode,
                              accountId: string, first: string, second: string)
    requires !readable || (write == Throws && Stored(entries, LookupKey(accountId)) == "")
    ensures var e := Call(entries, readable, write, accountId, first, second);
      e.entries == entries && e.drawn > 0 &&
      e.sessionId == (if readable then second else first)
  {
  }

  /**
   * A write the jar accepts but does not keep raises nothing: the first
   * fresh identifier is returned and the jar is left as it was, so the next
   * call for the account draws again.
   */
  lemma IgnoredWriteNotKept(entries: map<string, string>, accountId: string, first: string, second: string,
                            third: string, fourth: string)
    requires Stored(entries, LookupKey(accountId)) == ""
    ensures var e1 := Call(entries, true, Ignored, accountId, first, second);
      var e2 := Call(e1.entries, true, Ignored, accountId, third, fourth);
      e1.sessionId == first && e1.entries == entries && e1.drawn == 1 &&
      e2.sessionId == third && e2.drawn == 1
  {
  }

  /**
   * The browser's cookie jar. `readable` is false when parsing the jar
   * throws; `write` says whether serialising and assigning a cookie throws,
   * is silently dropped, or is kept.
   */
  class CookieJar {
    var entries: map<string, string>
    var readable: bool
    var write: WriteMode

    constructor (entries: map<string, string>, readable: bool, write: WriteMode)
      ensures this.entries == entries && this.readable == readable && this.write == write
    {
      this.entries := entries;
      this.readable := readable;
      this.write := write;
    }

    /** `cookies.parse(document.cookie)`: the entries, or None when it throws. */
    method Parse() returns (r: Option<map<string, string>>)
      ensures readable <==> r.Some?
      ensures r.Some? ==> r.value == entries
    {
      r := if readable then Some(entries) else None;
    }

    /**
     * `document.cookie = ...`: false when it throws; the one entry is set
     * only when the jar keeps the write.
     */
    method Set(key: string, value: string) returns (ok: bool)
      modifies this`entries
      ensures ok <==> write != Throws
      ensures entries == if write == Kept then old(entries)[key := value] else old(entries)
    {
      ok := write != Throws;
      if write == Kept {
        entries := entries[key := value];
      }
    }
  }

  /** `getSessionId(accountId)` over the jar and the identifier generator. */
  method GetSessionId(jar: CookieJar, gen: IdGenerator, accountId: string) returns (sessionId: string)
    requires gen.Valid()
    modifies jar`entries, gen
    ensures gen.Valid()
    ensures var e := Call(old(jar.entries), jar.readable, jar.write, accountId, old(gen.Peek(0)), old(gen.Peek(1)));
      sessionId == e.sessionId && jar.entries == e.entries && gen.counter == old(gen.counter) + e.drawn
    ensures sessionId in old(jar.entries).Values || sessionId !in old(gen.issued)
  {
    gen.UpcomingAreFresh(1);
    var lookupKey := LookupKey(accountId);
    var cookieData := jar.Parse();
    if cookieData.None? {
      sessionId := gen.Next();
      return;
    }
    sessionId := Stored(cookieData.value, lookupKey);
    if sessionId == "" {
      sessionId := gen.Next();
      var ok := jar.Set(lookupKey, sessionId);
      if !ok {
        sessionId := gen.Next();
      }
    }
  }

  /**
   * With a readable jar that keeps writes, two calls for the same account
   * return the same identifier, and the jar then maps the account's key to it.
   */
  method RepeatedCallsAgree(jar: CookieJar, gen: IdGenerator, accountId: string) returns (a: string, b: string)
    requires gen.Valid() && jar.readable && jar.write == Kept
    modifies jar`entries, gen
    ensures a == b
    ensures LookupKey(accountId) in jar.entries && jar.entries[LookupKey(accountId)] == a
  {
    a := GetSessionId(jar, gen, accountId);
    ghost var afterFirst := jar.entries;
    b := GetSessionId(jar, gen, accountId);
    assert jar.entries == afterFirst;
  }

  /**
   * With a jar whose read always throws, two calls for the same account
   * return two different identifiers and the jar is untouched.
   */
  method FailingReadUnlinkable(jar: CookieJar, gen: IdGenerator, accountId: string) returns (a: string, b: string)
    requires gen.Valid() && !jar.readable
    modifies jar`entries, gen
    ensures a != b
    ensures jar.entries == old(jar.entries)
  {
    ghost var start := gen.counter;
    a := GetSessionId(jar, gen, accountId);
    assert a == Hex(start);
    b := GetSessionId(jar, gen, accountId);
    assert b == Hex(start + 1);
    if a == b {
      HexInjective(start, start + 1);
    }
  }

  /**
   * With a jar that drops writes without throwing, two calls for an account
   * with no stored identifier return two different identifiers and the jar
   * is untouched.
   */
  method IgnoredWritesUnlinkable(jar: CookieJar, gen: IdGenerator, accountId: string) returns (a: string, b: string)
    requires gen.Valid() && jar.readable && jar.write == Ignored
    requires Stored(jar.entries, LookupKey(accountId)) == ""
    modifies jar`entries, gen
    ensures a != b
    ensures jar.entries == old(jar.entries)
  {
    ghost var start := gen.counter;
    a := GetSessionId(jar, gen, accountId);
    assert a == Hex(start);
    b := GetSessionId(jar, gen, accountId);
    assert b == Hex(start + 1);
    if a == b {
      HexInjective(start, start + 1);
    }
  }
}

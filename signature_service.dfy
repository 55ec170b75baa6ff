/** Request signing for API-key clients: the canonical request text, the
 *  canonical query string, the timestamp window and signature comparison.
 *  HMAC-SHA256, SHA-256 and Base64 are passed in as functions. */
module SignatureService {
  import opened Common

  /** Accepted distance between the request's timestamp and the clock, seconds. */
  const TimestampToleranceSeconds: int := 300

  const LongMin: int := -0x8000_0000_0000_0000
  const LongMax: int := 0x7FFF_FFFF_FFFF_FFFF

  /** hashRequestBody: no body, or an empty one, hashes to the empty text;
   *  any other body to the Base64 SHA-256 digest sha256. */
  function HashRequestBody(body: Option<string>, sha256: string -> string): (r: string)
    ensures body.None? || body.value == "" ==> r == ""
    ensures body.Some? && body.value != "" ==> r == sha256(body.value)
  {
    if body.None? || body.value == "" then "" else sha256(body.value)
  }

  /** generateCanonicalRequest: METHOD, path, timestamp, nonce and body hash,
   *  one per line. */
  function CanonicalRequest(httpMethod: string, path: string, timestamp: string, nonce: string,
                            body: Option<string>, sha256: string -> string): (r: string)
  {
    Join([Upper(httpMethod), path, timestamp, nonce, HashRequestBody(body, sha256)], "\n")
  }

  /** generateCanonicalRequestWithQuery: as above, with the canonical query
   *  string on its own line after the path. */
  ghost function CanonicalRequestWithQuery(httpMethod: string, path: string, query: Option<map<string, string>>,
                                     timestamp: string, nonce: string,
                                     body: Option<string>, sha256: string -> string): (r: string)
  {
    Join([Upper(httpMethod), path, CanonicalQuery(query), timestamp, nonce, HashRequestBody(body, sha256)], "\n")
  }

  /** When no field holds a line break, the canonical request splits back into
   *  exactly its five fields, the method upper-cased: two requests that differ
   *  in any field have different canonical texts. */
  lemma CanonicalRequestFields(httpMethod: string, path: string, timestamp: string, nonce: string,
                               body: Option<string>, sha256: string -> string)
    requires '\n' !in httpMethod && '\n' !in path && '\n' !in timestamp && '\n' !in nonce
    requires '\n' !in HashRequestBody(body, sha256)
    ensures Split(CanonicalRequest(httpMethod, path, timestamp, nonce, body, sha256), '\n')
         == [Upper(httpMethod), path, timestamp, nonce, HashRequestBody(body, sha256)]
  {
    UpperKeepsAbsent(httpMethod, '\n');
    var parts := [Upper(httpMethod), path, timestamp, nonce, HashRequestBody(body, sha256)];
    SplitJoin(parts, '\n');
  }

  /** The query variant splits back into six fields, the query third. */
  lemma CanonicalRequestWithQueryFields(httpMethod: string, path: string, query: Option<map<string, string>>,
                                        timestamp: string, nonce: string,
                                        body: Option<string>, sha256: string -> string)
    requires '\n' !in httpMethod && '\n' !in path && '\n' !in timestamp && '\n' !in nonce
    requires '\n' !in CanonicalQuery(query) && '\n' !in HashRequestBody(body, sha256)
    ensures Split(CanonicalRequestWithQuery(httpMethod, path, query, timestamp, nonce, body, sha256), '\n')
         == [Upper(httpMethod), path, CanonicalQuery(query), timestamp, nonce, HashRequestBody(body, sha256)]
  {
    UpperKeepsAbsent(httpMethod, '\n');
    var parts := [Upper(httpMethod), path, CanonicalQuery(query), timestamp, nonce, HashRequestBody(body, sha256)];
    SplitJoin(parts, '\n');
  }

  // ---------------------------------------------------------------- key order

  /** String.compareTo(a, b) < 0: lexicographic order on characters, a proper
   *  prefix first. */
  predicate StrLt(a: string, b: string)
  {
    if a == [] then b != []
    else if b == [] then false
    else if a[0] != b[0] then a[0] < b[0]
    else StrLt(a[1..], b[1..])
  }

  lemma {:induction false} StrLtIrreflexive(a: string)
    ensures !StrLt(a, a)
  {
    if a != [] { StrLtIrreflexive(a[1..]); }
  }

  lemma {:induction false} StrLtTransitive(a: string, b: string, c: string)
    requires StrLt(a, b) && StrLt(b, c)
    ensures StrLt(a, c)
  {
    if a != [] && b != [] && c != [] && a[0] == b[0] && b[0] == c[0] {
      StrLtTransitive(a[1..], b[1..], c[1..]);
    }
  }

  lemma {:induction false} StrLtTotal(a: string, b: string)
    requires a != b
    ensures StrLt(a, b) || StrLt(b, a)
  {
    if a != [] && b != [] && a[0] == b[0] {
      assert a == [a[0]] + a[1..] && b == [b[0]] + b[1..];
      StrLtTotal(a[1..], b[1..]);
    }
  }

  /** k comes before every other key of ks. */
  predicate IsLeast(k: string, ks: set<string>)
  {
    k in ks && forall j :: j in ks && j != k ==> StrLt(k, j)
  }

  lemma {:induction false} LeastExists(ks: set<string>)
    requires ks != {}
    ensures exists k :: IsLeast(k, ks)
    decreases |ks|
  {
    var x :| x in ks;
    var rest := ks - {x};
    if rest == {} {
      assert ks == {x};
      assert IsLeast(x, ks);
    } else {
      LeastExists(rest);
      var m :| IsLeast(m, rest);
      if StrLt(x, m) {
        forall j | j in ks && j != x ensures StrLt(x, j) {
          if j != m { StrLtTransitive(x, m, j); }
        }
        assert IsLeast(x, ks);
      } else {
        StrLtTotal(x, m);
        assert IsLeast(m, ks);
      }
    }
  }

  lemma LeastUnique(a: string, b: string, ks: set<string>)
    requires IsLeast(a, ks) && IsLeast(b, ks)
    ensures a == b
  {
    if a != b {
      assert StrLt(a, b) && StrLt(b, a);
      StrLtTransitive(a, b, a);
      StrLtIrreflexive(a);
    }
  }

  /** The keys of a map in ascending order, as a TreeMap iterates them. */
  ghost function SortedKeys(ks: set<string>): (r: seq<string>)
    decreases |ks|
  {
    if ks == {} then []
    else
      LeastExists(ks);
      var k :| IsLeast(k, ks);
      [k] + SortedKeys(ks - {k})
  }

  /** The walk lists keys of the set, and each of them. */
  lemma {:induction false} SortedKeysMembers(ks: set<string>)
    ensures |SortedKeys(ks)| == |ks|
    ensures forall i :: 0 <= i < |SortedKeys(ks)| ==> SortedKeys(ks)[i] in ks
    ensures forall k :: k in ks ==> k in SortedKeys(ks)
    decreases |ks|
  {
    if ks != {} {
      var r := SortedKeys(ks);
      var k := r[0];
      assert IsLeast(k, ks);
      SortedKeysMembers(ks - {k});
      assert r == [k] + SortedKeys(ks - {k});
    }
  }

  /** The walk is in strictly ascending order. */
  lemma {:induction false} SortedKeysAscending(ks: set<string>)
    ensures forall i, j :: 0 <= i < j < |SortedKeys(ks)| ==> StrLt(SortedKeys(ks)[i], SortedKeys(ks)[j])
    decreases |ks|
  {
    if ks != {} {
      var r := SortedKeys(ks);
      var k := r[0];
      assert IsLeast(k, ks);
      SortedKeysMembers(ks - {k});
      SortedKeysAscending(ks - {k});
      assert r == [k] + SortedKeys(ks - {k});
    }
  }

  /** Removing the least key leaves the rest of the order. */
  lemma SortedKeysStep(k: string, ks: set<string>)
    requires IsLeast(k, ks)
    ensures SortedKeys(ks) == [k] + SortedKeys(ks - {k})
  {
    var r := SortedKeys(ks);
    assert IsLeast(r[0], ks);
    LeastUnique(r[0], k, ks);
  }

  /** "k=v" for each key, in the given order. */
  function Pairs(keys: seq<string>, m: map<string, string>): (r: seq<string>)
    requires forall i :: 0 <= i < |keys| ==> keys[i] in m
    ensures |r| == |keys|
    ensures forall i :: 0 <= i < |keys| ==> r[i] == keys[i] + "=" + m[keys[i]]
  {
    if keys == [] then [] else [keys[0] + "=" + m[keys[0]]] + Pairs(keys[1..], m)
  }

  /** buildCanonicalQueryString, as a value: no map or an empty one gives the
   *  empty text, otherwise "k=v" pairs in ascending key order joined by "&". */
  ghost function CanonicalQuery(query: Option<map<string, string>>): string
  {
    if query.None? || query.value == map[] then ""
    else
      SortedKeysMembers(query.value.Keys);
      Join(Pairs(SortedKeys(query.value.Keys), query.value), "&")
  }

  /** buildCanonicalQueryString: walks the keys in ascending order (taking the
   *  least remaining key each time) and appends "k=v", with "&" before every
   *  pair but the first. */
  method BuildCanonicalQueryString(query: Option<map<string, string>>) returns (s: string)
    ensures s == CanonicalQuery(query)
  {
    if query.None? || query.value == map[] {
      return "";
    }
    var m := query.value;
    var remaining := m.Keys;
    ghost var done: seq<string> := [];
    s := "";
    while remaining != {}
      invariant remaining <= m.Keys
      invariant forall i :: 0 <= i < |done| ==> done[i] in m
      invariant done + SortedKeys(remaining) == SortedKeys(m.Keys)
      invariant done == [] ==> s == ""
      invariant done != [] ==> |s| > 0 && s == Join(Pairs(done, m), "&")
      decreases |remaining|
    {
      LeastExists(remaining);
      var k :| IsLeast(k, remaining);
      SortedKeysAdvance(done, remaining, m.Keys, k);
      var pair := k + "=" + m[k];
      if |s| > 0 {
        s := s + "&";
      }
      s := s + pair;
      AppendPair(done, k, m);
      done := done + [k];
      remaining := remaining - {k};
    }
    WalkComplete(done, m.Keys);
  }

  lemma WalkComplete(done: seq<string>, all: set<string>)
    requires done + SortedKeys({}) == SortedKeys(all)
    requires all != {}
    ensures done == SortedKeys(all) && done != []
  {
    SortedKeysMembers(all);
  }

  /** Taking the least remaining key extends the prefix of the order walked so far. */
  lemma SortedKeysAdvance(done: seq<string>, remaining: set<string>, all: set<string>, k: string)
    requires done + SortedKeys(remaining) == SortedKeys(all)
    requires IsLeast(k, remaining)
    ensures (done + [k]) + SortedKeys(remaining - {k}) == SortedKeys(all)
  {
    SortedKeysStep(k, remaining);
    assert done + SortedKeys(remaining) == done + ([k] + SortedKeys(remaining - {k}));
  }

  /** One more pair at the end of the query text. */
  lemma AppendPair(done: seq<string>, k: string, m: map<string, string>)
    requires forall i :: 0 <= i < |done| ==> done[i] in m
    requires k in m
    ensures done == [] ==> Join(Pairs(done + [k], m), "&") == k + "=" + m[k]
    ensures done != [] ==> Join(Pairs(done + [k], m), "&") == Join(Pairs(done, m), "&") + "&" + (k + "=" + m[k])
  {
    assert Pairs(done + [k], m) == Pairs(done, m) + [k + "=" + m[k]];
    if done != [] {
      JoinSnoc(Pairs(done, m), k + "=" + m[k], "&");
    }
  }

  // ---------------------------------------------------------------- signatures

  /** generateSignature: Base64 of HMAC-SHA256 of the canonical request under
   *  the client secret, both passed in as hmac. */
  function GenerateSignature(canonical: string, secret: string, hmac: (string, string) -> string): string
  {
    hmac(canonical, secret)
  }

  /** verifySignature: the provided signature matches the expected one byte for
   *  byte (UTF-8 encoding is injective, so this is equality of the texts). */
  function VerifySignature(provided: string, canonical: string, secret: string,
                           hmac: (string, string) -> string): (r: bool)
    ensures r ==> provided == GenerateSignature(canonical, secret, hmac)
    ensures provided == GenerateSignature(canonical, secret, hmac) ==> r
  {
    provided == GenerateSignature(canonical, secret, hmac)
  }

  // ---------------------------------------------------------------- timestamps

  predicate AllDigits(s: string)
  {
    forall i :: 0 <= i < |s| ==> '0' <= s[i] <= '9'
  }

  /** Long.parseLong for ASCII digits: an optional sign, at least one digit,
   *  and a value inside the 64-bit range; anything else is a
   *  NumberFormatException (None). */
  function ParseLong(s: string): (r: Option<int>)
    ensures r.Some? ==> LongMin <= r.value <= LongMax
  {
    if s == [] then None
    else
      var negative := s[0] == '-';
      var digits := if s[0] == '-' || s[0] == '+' then s[1..] else s;
      if digits == [] || !AllDigits(digits) then None
      else
        var d: int := DigitsValue(digits);
        var v := if negative then -d else d;
        if LongMin <= v <= LongMax then Some(v) else None
  }

  /** A non-negative long printed in decimal parses back to itself. */
  lemma ParseLongOfDecimal(n: nat)
    requires n <= LongMax
    ensures ParseLong(DecimalText(n)) == Some(n)
  {
    DigitsValueOfDecimal(n);
  }

  function Abs(x: int): (r: nat)
    ensures r == x || r == -x
  {
    if x < 0 then -x else x
  }

  /** A Java long: 64-bit two's complement wrap-around. */
  function ToLong(x: int): (r: int)
    ensures LongMin <= r <= LongMax
    ensures LongMin <= x <= LongMax ==> r == x
  {
    (x - LongMin) % 0x1_0000_0000_0000_0000 + LongMin
  }

  /** Math.abs on a long: Long.MIN_VALUE is its own negation and stays
   *  negative. */
  function LongAbs(x: int): (r: int)
    requires LongMin <= x <= LongMax
    ensures x == LongMin ==> r == LongMin
    ensures x != LongMin ==> r == Abs(x) && r >= 0
  {
    if x == LongMin then x else Abs(x)
  }

  /** validateTimestamp: the text is a long and `Math.abs(now - ts)`, computed
   *  in long arithmetic, is at most 300. Beside the intended window of 300
   *  seconds on either side, the wrap-around also lets through a distance of
   *  exactly 2^63 (its absolute value is Long.MIN_VALUE) and distances within
   *  300 of 2^64. Text that does not parse is invalid. */
  function ValidateTimestamp(timestamp: string, now: int): (r: bool)
    requires LongMin <= now <= LongMax
    ensures r <==> ParseLong(timestamp).Some? &&
                   var d := Abs(now - ParseLong(timestamp).value);
                   d <= TimestampToleranceSeconds || d == 0x8000_0000_0000_0000 ||
                   d >= 0x1_0000_0000_0000_0000 - TimestampToleranceSeconds
  {
    match ParseLong(timestamp)
    case None => false
    case Some(ts) =>
      WrappedDistance(now - ts);
      LongAbs(ToLong(now - ts)) <= TimestampToleranceSeconds
  }

  /** Which true differences of two longs pass the wrapped window test. */
  lemma WrappedDistance(d: int)
    requires -0xFFFF_FFFF_FFFF_FFFF <= d <= 0xFFFF_FFFF_FFFF_FFFF
    ensures LongAbs(ToLong(d)) <= TimestampToleranceSeconds <==>
            Abs(d) <= TimestampToleranceSeconds || Abs(d) == 0x8000_0000_0000_0000 ||
            Abs(d) >= 0x1_0000_0000_0000_0000 - TimestampToleranceSeconds
  {
    if d > LongMax {
      ToLongAbove(d);
    } else if d < LongMin {
      ToLongBelow(d);
    }
  }

  lemma ToLongAbove(x: int)
    requires LongMax < x <= 0xFFFF_FFFF_FFFF_FFFF
    ensures ToLong(x) == x - 0x1_0000_0000_0000_0000
  {
    var m := 0x1_0000_0000_0000_0000;
    var y := x - LongMin;
    assert m <= y < 2 * m;
    assert y % m == y - m by { assert y == 1 * m + (y - m) && 0 <= y - m < m; }
  }

  lemma ToLongBelow(x: int)
    requires -0xFFFF_FFFF_FFFF_FFFF <= x < LongMin
    ensures ToLong(x) == x + 0x1_0000_0000_0000_0000
  {
    var m := 0x1_0000_0000_0000_0000;
    var y := x - LongMin;
    assert -m < y < 0;
    assert y % m == y + m by { assert y == -1 * m + (y + m) && 0 <= y + m < m; }
  }

  /** The evidently intended window: the text is a long at most 300 seconds
   *  from now, either side, the distance computed without overflow. */
  function TimestampInWindow(timestamp: string, now: int): (r: bool)
    ensures r <==> ParseLong(timestamp).Some? &&
                   Abs(now - ParseLong(timestamp).value) <= TimestampToleranceSeconds
  {
    match ParseLong(timestamp)
    case None => false
    case Some(ts) => now - TimestampToleranceSeconds <= ts <= now + TimestampToleranceSeconds
  }

  /** Long.toString of a negative long -m read back by Long.parseLong. */
  lemma ParseLongOfNegative(m: nat)
    requires 0 < m <= 0x8000_0000_0000_0000
    ensures ParseLong("-" + DecimalText(m)) == Some(-(m as int))
  {
    var s := "-" + DecimalText(m);
    assert s[0] == '-' && s[1..] == DecimalText(m);
    DigitsValueOfDecimal(m);
    assert AllDigits(s[1..]) && DigitsValue(s[1..]) == m;
  }

  /** As written, a request stamped 2^63 seconds before a clock reading is
   *  accepted: the long difference wraps to Long.MIN_VALUE, whose Math.abs
   *  is negative. The intended window refuses it. */
  lemma StaleTimestampAccepted(now: int)
    requires 0 <= now <= LongMax
    ensures var stale := "-" + DecimalText(0x8000_0000_0000_0000 - now);
            ValidateTimestamp(stale, now) && !TimestampInWindow(stale, now)
  {
    var m: nat := 0x8000_0000_0000_0000 - now;
    ParseLongOfNegative(m);
    StaleTextAccepted("-" + DecimalText(m), now);
  }

  /** Any text that reads as the long 2^63 seconds before the clock passes
   *  the written check and fails the intended window. */
  lemma StaleTextAccepted(stale: string, now: int)
    requires 0 <= now <= LongMax && ParseLong(stale) == Some(now - 0x8000_0000_0000_0000)
    ensures ValidateTimestamp(stale, now) && !TimestampInWindow(stale, now)
  {
    assert Abs(now - ParseLong(stale).value) == 0x8000_0000_0000_0000;
  }

  /** Clock readings are epoch seconds, far below 2^62. */
  const ClockLimit: int := 0x4000_0000_0000_0000

  /** For real clock readings the written check passes exactly the
   *  timestamps the intended window passes but one: the stamp 2^63 seconds
   *  before the clock. */
  lemma ValidateAgreesWithWindow(timestamp: string, now: int)
    requires 0 <= now < ClockLimit
    ensures ValidateTimestamp(timestamp, now) <==>
            TimestampInWindow(timestamp, now) ||
            ParseLong(timestamp) == Some(now - 0x8000_0000_0000_0000)
  {
  }

  /** A timestamp valid at two clock readings pins them within twice the
   *  tolerance of each other, the wrap-around case included. */
  lemma ValidTwiceMeansClose(timestamp: string, a: int, b: int)
    requires 0 <= a < ClockLimit && 0 <= b < ClockLimit
    requires ValidateTimestamp(timestamp, a) && ValidateTimestamp(timestamp, b)
    ensures -2 * TimestampToleranceSeconds <= a - b <= 2 * TimestampToleranceSeconds
  {
    ValidateAgreesWithWindow(timestamp, a);
    ValidateAgreesWithWindow(timestamp, b);
  }

  /** A timestamp taken from the clock (getCurrentTimestamp) is valid for
   *  exactly the next 300 seconds. */
  lemma FreshTimestampValid(issued: nat, now: int)
    requires issued <= LongMax && 0 <= now <= LongMax
    ensures ValidateTimestamp(DecimalText(issued), now) <==> -300 <= now - issued <= 300
  {
    ParseLongOfDecimal(issued);
  }
}

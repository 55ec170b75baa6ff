/** PostgreSQL's text form of a flat jsonb object of strings, as the scheduled task
 *  services' `payload::text` casts see it: keys in jsonb's storage order
 *  (shorter keys first, equal lengths by character code), each member
 *  written `"key": "value"`, members separated by `, `, strings escaped
 *  the way jsonb output escapes them. */
module Jsonb {
  import opened Common

  // ---------------------------------------------------------------- key order

  /** Character-by-character order on two texts of one length. */
  predicate LexBefore(a: string, b: string)
    decreases |a|
  {
    |a| > 0 && |b| > 0 && (a[0] < b[0] || (a[0] == b[0] && LexBefore(a[1..], b[1..])))
  }

  /** jsonb's key order: by length, then character by character. */
  predicate KeyBefore(a: string, b: string)
  {
    |a| < |b| || (|a| == |b| && LexBefore(a, b))
  }

  lemma {:induction false} LexAsymmetric(a: string, b: string)
    ensures !(LexBefore(a, b) && LexBefore(b, a))
    decreases |a|
  {
    if |a| > 0 && |b| > 0 && a[0] == b[0] {
      LexAsymmetric(a[1..], b[1..]);
    }
  }

  lemma {:induction false} LexTransitive(a: string, b: string, c: string)
    requires LexBefore(a, b) && LexBefore(b, c)
    ensures LexBefore(a, c)
    decreases |a|
  {
    if a[0] == b[0] && b[0] == c[0] {
      LexTransitive(a[1..], b[1..], c[1..]);
    }
  }

  lemma {:induction false} LexTotal(a: string, b: string)
    requires |a| == |b| && a != b
    ensures LexBefore(a, b) || LexBefore(b, a)
    decreases |a|
  {
    if a[0] == b[0] {
      assert a == [a[0]] + a[1..] && b == [b[0]] + b[1..];
      LexTotal(a[1..], b[1..]);
    }
  }

  /** The key order is a strict total order. */
  lemma KeyOrder()
    ensures forall a, b :: !(KeyBefore(a, b) && KeyBefore(b, a))
    ensures forall a, b, c :: KeyBefore(a, b) && KeyBefore(b, c) ==> KeyBefore(a, c)
    ensures forall a, b :: a != b ==> KeyBefore(a, b) || KeyBefore(b, a)
  {
    forall a, b ensures !(KeyBefore(a, b) && KeyBefore(b, a)) {
      LexAsymmetric(a, b);
    }
    forall a, b, c | KeyBefore(a, b) && KeyBefore(b, c) ensures KeyBefore(a, c) {
      if |a| == |b| == |c| {
        LexTransitive(a, b, c);
      }
    }
    forall a, b | a != b ensures KeyBefore(a, b) || KeyBefore(b, a) {
      if |a| == |b| {
        LexTotal(a, b);
      }
    }
  }

  /** x comes before every other member of s. */
  predicate IsLeast(x: string, s: set<string>)
  {
    x in s && forall y :: y in s ==> y == x || KeyBefore(x, y)
  }

  /** Every non-empty finite set of keys has a first key. */
  lemma {:induction false} LeastExists(s: set<string>)
    requires s != {}
    ensures exists x :: IsLeast(x, s)
    decreases |s|
  {
    KeyOrder();
    var z :| z in s;
    if s - {z} == {} {
      assert s == {z};
      assert IsLeast(z, s);
    } else {
      LeastExists(s - {z});
      var m :| IsLeast(m, s - {z});
      if KeyBefore(z, m) {
        assert IsLeast(z, s);
      } else {
        assert IsLeast(m, s);
      }
    }
  }

  /** The first key of a non-empty set. */
  function Least(s: set<string>): (r: string)
    requires s != {}
    ensures IsLeast(r, s)
  {
    LeastExists(s);
    KeyOrder();
    var x :| IsLeast(x, s);
    x
  }

  /** The keys of a set in jsonb's order. */
  function SortedKeys(s: set<string>): (r: seq<string>)
    ensures |r| == |s|
    ensures forall k :: k in r <==> k in s
    ensures forall i, j :: 0 <= i < j < |r| ==> KeyBefore(r[i], r[j])
    decreases |s|
  {
    if s == {} then []
    else
      var k := Least(s);
      var rest := SortedKeys(s - {k});
      assert forall j :: 0 <= j < |rest| ==> rest[j] in s - {k};
      [k] + rest
  }

  // ---------------------------------------------------------------- text

  function HexDigit(d: int): char
    requires 0 <= d < 16
  {
    if d < 10 then ('0' as int + d) as char else ('a' as int + d - 10) as char
  }

  /** One character of a jsonb string as output writes it. */
  function EscapeChar(c: char): (r: string)
    ensures |r| >= 1
    ensures ':' !in r <==> c != ':'
  {
    if c == '"' then "\\\""
    else if c == '\\' then "\\\\"
    else if c == '\U{8}' then "\\b"
    else if c == '\U{C}' then "\\f"
    else if c == '\n' then "\\n"
    else if c == '\r' then "\\r"
    else if c == '\t' then "\\t"
    else if c < ' ' then "\\u00" + [HexDigit(c as int / 16), HexDigit(c as int % 16)]
    else [c]
  }

  function Escape(s: string): (r: string)
    ensures ':' !in s ==> ':' !in r
  {
    if s == [] then "" else EscapeChar(s[0]) + Escape(s[1..])
  }

  function Quoted(s: string): string
  {
    "\"" + Escape(s) + "\""
  }

  function Member(key: string, value: string): string
  {
    Quoted(key) + ": " + Quoted(value)
  }

  /** The members of the listed keys, separated by ", ". */
  function Members(m: map<string, string>, keys: seq<string>): string
    requires forall k :: k in keys ==> k in m
  {
    if keys == [] then ""
    else if |keys| == 1 then Member(keys[0], m[keys[0]])
    else Member(keys[0], m[keys[0]]) + ", " + Members(m, keys[1..])
  }

  /** `payload::text`. */
  function Render(m: map<string, string>): string
  {
    "{" + Members(m, SortedKeys(m.Keys)) + "}"
  }

  // ---------------------------------------------------------------- colons

  /** A character that follows a string's closing quote: the ":" after a
   *  key, the "," between members, the "}" closing the object. */
  predicate Closer(c: char)
  {
    c == ':' || c == ',' || c == '}'
  }

  /** No colon is immediately followed by a double quote. */
  predicate NoColonQuote(s: string)
  {
    forall i :: 0 <= i && i + 1 < |s| && s[i] == ':' ==> s[i + 1] != '"'
  }

  /** A colon followed by a double quote is always followed in turn by a
   *  closer: the colon ended a string's content and the quote closed it. */
  predicate ColonQuoteCloses(s: string)
  {
    forall i :: 0 <= i && i + 2 < |s| && s[i] == ':' && s[i + 1] == '"' ==> Closer(s[i + 2])
  }

  /** An escaped character never starts with a double quote, and holds a
   *  colon only as the colon itself. */
  lemma EscapeCharShape(c: char)
    ensures EscapeChar(c)[0] != '"'
    ensures c == ':' ==> EscapeChar(c) == ":"
  {
  }

  /** Escaped text never puts a double quote right after a colon, and never
   *  starts with a double quote. */
  lemma {:induction false} EscapeNoColonQuote(x: string)
    ensures NoColonQuote(Escape(x))
    ensures |Escape(x)| > 0 ==> Escape(x)[0] != '"'
    decreases |x|
  {
    if x != [] {
      var head := EscapeChar(x[0]);
      var tail := Escape(x[1..]);
      EscapeCharShape(x[0]);
      EscapeNoColonQuote(x[1..]);
      assert Escape(x) == head + tail;
      forall i | 0 <= i && i + 1 < |head + tail| && (head + tail)[i] == ':'
        ensures (head + tail)[i + 1] != '"'
      {
        if i < |head| {
          assert ':' in head by { assert head[i] == ':'; }
          assert head == ":";
          assert (head + tail)[i + 1] == tail[0];
        } else {
          assert (head + tail)[i + 1] == tail[i + 1 - |head|];
        }
      }
    }
  }

  /** In a quoted string, a colon before a double quote can only be the last
   *  character of the content, before the closing quote. */
  lemma QuotedCloses(x: string)
    ensures var q := Quoted(x);
            ColonQuoteCloses(q) && |q| >= 2 && q[0] == '"' && q[|q| - 1] == '"'
  {
    var e := Escape(x);
    var q := Quoted(x);
    EscapeNoColonQuote(x);
    assert forall i :: 1 <= i < |q| - 1 ==> q[i] == e[i - 1];
  }

  /** The property survives concatenation when the seam does not create a
   *  colon and a quote that a closer does not follow. */
  lemma ColonQuoteClosesConcat(a: string, b: string)
    requires ColonQuoteCloses(a) && ColonQuoteCloses(b)
    requires |a| >= 2 && a[|a| - 2] == ':' && a[|a| - 1] == '"' && |b| > 0 ==> Closer(b[0])
    requires |a| >= 1 && a[|a| - 1] == ':' && |b| >= 2 && b[0] == '"' ==> Closer(b[1])
    ensures ColonQuoteCloses(a + b)
  {
    var s := a + b;
    forall i | 0 <= i && i + 2 < |s| && s[i] == ':' && s[i + 1] == '"' ensures Closer(s[i + 2]) {
      if i + 2 < |a| {
        assert a[i] == ':' && a[i + 1] == '"';
      } else if i + 2 == |a| {
        assert s[i + 2] == b[0];
      } else if i + 1 == |a| {
        assert s[i + 1] == b[0] && s[i + 2] == b[1];
      } else {
        assert b[i - |a|] == ':' && b[i + 1 - |a|] == '"' && s[i + 2] == b[i + 2 - |a|];
      }
    }
  }

  lemma MemberCloses(key: string, value: string)
    ensures var t := Member(key, value);
            ColonQuoteCloses(t) && |t| >= 2 && t[0] == '"' && t[|t| - 1] == '"'
  {
    QuotedCloses(key);
    QuotedCloses(value);
    var sep := ": " + Quoted(value);
    ColonQuoteClosesConcat(": ", Quoted(value));
    ColonQuoteClosesConcat(Quoted(key), sep);
    assert Member(key, value) == Quoted(key) + sep;
  }

  /** Two members joined by ", ". */
  lemma JoinCloses(first: string, rest: string)
    requires ColonQuoteCloses(first) && ColonQuoteCloses(rest)
    requires |rest| >= 2 && rest[|rest| - 1] == '"'
    ensures var t := first + ", " + rest;
            ColonQuoteCloses(t) && t[|t| - 1] == '"'
  {
    var tail := ", " + rest;
    ColonQuoteClosesConcat(", ", rest);
    assert tail[0] == ',';
    ColonQuoteClosesConcat(first, tail);
    assert first + ", " + rest == first + tail;
  }

  lemma {:induction false} MembersCloses(m: map<string, string>, keys: seq<string>)
    requires forall k :: k in keys ==> k in m
    ensures var t := Members(m, keys);
            ColonQuoteCloses(t) && (keys != [] ==> |t| >= 2 && t[0] == '"' && t[|t| - 1] == '"')
    decreases |keys|
  {
    if keys != [] {
      var k := keys[0];
      var first := Member(k, m[k]);
      MemberCloses(k, m[k]);
      if |keys| > 1 {
        MembersCloses(m, keys[1..]);
        JoinCloses(first, Members(m, keys[1..]));
      }
    }
  }

  /** In the text of any object, a colon followed by a double quote is
   *  followed by ":", "," or "}". */
  lemma RenderCloses(m: map<string, string>)
    ensures ColonQuoteCloses(Render(m))
  {
    var body := Members(m, SortedKeys(m.Keys));
    MembersCloses(m, SortedKeys(m.Keys));
    ColonQuoteClosesConcat("{", body);
    ColonQuoteClosesConcat("{" + body, "}");
  }

  /** Such a text holds no piece with a colon and a double quote followed by
   *  anything but a closer. */
  lemma ClosesLacksPattern(s: string, sub: string, k: nat)
    requires ColonQuoteCloses(s)
    requires k + 2 < |sub| && sub[k] == ':' && sub[k + 1] == '"' && !Closer(sub[k + 2])
    ensures !Contains(s, sub)
  {
    forall i | 0 <= i <= |s| - |sub| ensures !OccursAt(s, sub, i) {
      if s[i + k] == ':' && s[i + k + 1] == '"' {
        assert s[i..i + |sub|][k + 2] != sub[k + 2];
      } else if s[i + k] != ':' {
        assert s[i..i + |sub|][k] != sub[k];
      } else {
        assert s[i..i + |sub|][k + 1] != sub[k + 1];
      }
    }
  }
}

/** The JSON text PostgreSQL's jsonb input accepts: one JSON value (RFC 8259,
 *  section 2) with white space around it. Each parser below reads one
 *  construct starting at a position of the text and yields the position just
 *  past it, or None when the text does not hold that construct there. */
module JsonInput {
  import opened Common

  predicate IsWs(c: char)
  {
    c == ' ' || c == '\t' || c == '\n' || c == '\r'
  }

  predicate IsDigit(c: char) { '0' <= c <= '9' }

  predicate IsHex(c: char)
  {
    '0' <= c <= '9' || 'a' <= c <= 'f' || 'A' <= c <= 'F'
  }

  /** The position past any white space from i. */
  function SkipWs(s: string, i: nat): (j: nat)
    requires i <= |s|
    ensures i <= j <= |s|
    ensures j < |s| ==> !IsWs(s[j])
    decreases |s| - i
  {
    if i < |s| && IsWs(s[i]) then SkipWs(s, i + 1) else i
  }

  /** The rest of a string token after its opening quote: unescaped
   *  characters other than a quote, a backslash or a control character,
   *  and the escapes `\" \\ \/ \b \f \n \r \t \uXXXX`, up to the closing
   *  quote. */
  function StringRest(s: string, i: nat): (r: Option<nat>)
    requires i <= |s|
    ensures r.Some? ==> i < r.value <= |s|
    decreases |s| - i
  {
    if i >= |s| then None
    else if s[i] == '"' then Some(i + 1)
    else if s[i] == '\\' then
      if i + 1 < |s| && s[i + 1] in "\"\\/bfnrt" then StringRest(s, i + 2)
      else if i + 5 < |s| && s[i + 1] == 'u' && IsHex(s[i + 2]) && IsHex(s[i + 3])
              && IsHex(s[i + 4]) && IsHex(s[i + 5]) then StringRest(s, i + 6)
      else None
    else if s[i] < ' ' then None
    else StringRest(s, i + 1)
  }

  /** The position past a run of digits from i (possibly empty). */
  function DigitsEnd(s: string, i: nat): (j: nat)
    requires i <= |s|
    ensures i <= j <= |s|
    decreases |s| - i
  {
    if i < |s| && IsDigit(s[i]) then DigitsEnd(s, i + 1) else i
  }

  /** A number: an optional minus, 0 or a digit run not starting with 0, an
   *  optional fraction and an optional exponent. */
  function Number(s: string, i: nat): (r: Option<nat>)
    requires i <= |s|
    ensures r.Some? ==> i < r.value <= |s|
  {
    var a := if i < |s| && s[i] == '-' then i + 1 else i;
    if a >= |s| || !IsDigit(s[a]) then None
    else
      var b := if s[a] == '0' then a + 1 else DigitsEnd(s, a + 1);
      var fraction: Option<nat> :=
        if b + 1 < |s| && s[b] == '.' && IsDigit(s[b + 1]) then Some(DigitsEnd(s, b + 2))
        else if b < |s| && s[b] == '.' then None
        else Some(b);
      if fraction.None? then None
      else
        var c := fraction.value;
        if c < |s| && (s[c] == 'e' || s[c] == 'E') then
          var d := if c + 1 < |s| && (s[c + 1] == '+' || s[c + 1] == '-') then c + 2 else c + 1;
          if d < |s| && IsDigit(s[d]) then Some(DigitsEnd(s, d + 1)) else None
        else Some(c)
  }

  /** One of the words true, false and null at i. */
  function Word(s: string, i: nat): (r: Option<nat>)
    requires i <= |s|
    ensures r.Some? ==> i < r.value <= |s|
  {
    if i + 4 <= |s| && (s[i..i + 4] == "true" || s[i..i + 4] == "null") then Some(i + 4)
    else if i + 5 <= |s| && s[i..i + 5] == "false" then Some(i + 5)
    else None
  }

  /** A value starting exactly at i. */
  function Value(s: string, i: nat): (r: Option<nat>)
    requires i <= |s|
    ensures r.Some? ==> i < r.value <= |s|
    decreases |s| - i, 3
  {
    if i >= |s| then None
    else if s[i] == '{' then Object(s, i + 1)
    else if s[i] == '[' then Array(s, i + 1)
    else if s[i] == '"' then StringRest(s, i + 1)
    else if s[i] == 't' || s[i] == 'f' || s[i] == 'n' then Word(s, i)
    else Number(s, i)
  }

  /** The rest of an object after its "{". */
  function Object(s: string, i: nat): (r: Option<nat>)
    requires i <= |s|
    ensures r.Some? ==> i < r.value <= |s|
    decreases |s| - i, 2
  {
    var j := SkipWs(s, i);
    if j < |s| && s[j] == '}' then Some(j + 1) else Members(s, j)
  }

  /** One member from its key's opening quote at j: the key, a colon and a
   *  value, up to the end of the value. */
  function Member(s: string, j: nat): (r: Option<nat>)
    requires j <= |s|
    ensures r.Some? ==> j < r.value <= |s|
    decreases |s| - j, 0
  {
    if j >= |s| || s[j] != '"' then None
    else
      var key := StringRest(s, j + 1);
      if key.None? then None
      else
        var colon := SkipWs(s, key.value);
        if colon >= |s| || s[colon] != ':' then None
        else Value(s, SkipWs(s, colon + 1))
  }

  /** Members from the first key's opening quote at j to the object's "}". */
  function Members(s: string, j: nat): (r: Option<nat>)
    requires j <= |s|
    ensures r.Some? ==> j < r.value <= |s|
    decreases |s| - j, 1
  {
    var m := Member(s, j);
    if m.None? then None
    else
      var after := SkipWs(s, m.value);
      if after < |s| && s[after] == '}' then Some(after + 1)
      else if after < |s| && s[after] == ',' then Members(s, SkipWs(s, after + 1))
      else None
  }

  /** The rest of an array after its "[". */
  function Array(s: string, i: nat): (r: Option<nat>)
    requires i <= |s|
    ensures r.Some? ==> i < r.value <= |s|
    decreases |s| - i, 5
  {
    var j := SkipWs(s, i);
    if j < |s| && s[j] == ']' then Some(j + 1) else Elements(s, j)
  }

  /** Elements from the first one at j to the array's "]". */
  function Elements(s: string, j: nat): (r: Option<nat>)
    requires j <= |s|
    ensures r.Some? ==> j < r.value <= |s|
    decreases |s| - j, 4
  {
    var v := Value(s, j);
    if v.None? then None
    else
      var after := SkipWs(s, v.value);
      if after < |s| && s[after] == ']' then Some(after + 1)
      else if after < |s| && s[after] == ',' then Elements(s, SkipWs(s, after + 1))
      else None
  }

  /** The whole text is one JSON value with white space around it. */
  predicate IsJson(s: string)
  {
    var v := Value(s, SkipWs(s, 0));
    v.Some? && SkipWs(s, v.value) == |s|
  }

  // ---------------------------------------------------------------- plain strings

  /** Text that stands for itself inside a JSON string: no quote, no
   *  backslash, no control character. */
  predicate Plain(c: string)
  {
    forall k :: 0 <= k < |c| ==> c[k] != '"' && c[k] != '\\' && c[k] >= ' '
  }

  /** Plain text followed by a quote is a whole string token's rest. */
  lemma {:induction false} PlainStringRest(s: string, i: nat, c: string)
    requires Plain(c) && i + |c| < |s|
    requires forall k :: 0 <= k < |c| ==> s[i + k] == c[k]
    requires s[i + |c|] == '"'
    ensures StringRest(s, i) == Some(i + |c| + 1)
    decreases |c|
  {
    if c != [] {
      assert s[i] == c[0];
      PlainStringRest(s, i + 1, c[1..]);
    }
  }

  /** The members parser after a first member that ends at `end`, where a
   *  "}" closes the object or a "," comes before the next member. */
  lemma MembersAfterMember(s: string, j: nat, end: nat)
    requires j <= |s| && Member(s, j) == Some(end)
    requires end < |s| && (s[end] == '}' || s[end] == ',')
    ensures s[end] == '}' ==> Members(s, j) == Some(end + 1)
    ensures s[end] == ',' ==> Members(s, j) == Members(s, SkipWs(s, end + 1))
  {
    assert SkipWs(s, end) == end;
  }
}

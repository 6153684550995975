/** encoding/json's form of an object of strings, as a sort key: different members give different text. */
module JSONKeys {

  datatype Member = Member(name: string, value: string)

  function HexDigit(n: nat): char
    requires n < 16
  {
    "0123456789abcdef"[n]
  }

  predicate IsEscaped(c: char) {
    c < ' ' || c in "\"\\<>&\U{2028}\U{2029}"
  }

  /** How one character is written inside a string, with the escapes for HTML and for line separators. */
  function Escape(c: char): (code: string)
    ensures 1 <= |code|
  {
    if !IsEscaped(c) then [c]
    else if c == '\"' then "\\\""
    else if c == '\\' then "\\\\"
    else if c == '\U{8}' then "\\b"
    else if c == '\U{c}' then "\\f"
    else if c == '\n' then "\\n"
    else if c == '\r' then "\\r"
    else if c == '\t' then "\\t"
    else if c == '\U{2028}' then "\\u2028"
    else if c == '\U{2029}' then "\\u2029"
    else "\\u00" + [HexDigit(c as int / 16), HexDigit(c as int % 16)]
  }

  function Escaped(s: string): string {
    if s == "" then "" else Escape(s[0]) + Escaped(s[1..])
  }

  function Quoted(s: string): string {
    "\"" + Escaped(s) + "\""
  }

  function ObjectTail(members: seq<Member>): string {
    if members == [] then "}"
    else "," + Quoted(members[0].name) + ":" + Quoted(members[0].value) + ObjectTail(members[1..])
  }

  /** An object with at least one member. */
  function Object(members: seq<Member>): string
    requires members != []
  {
    "{" + ObjectTail(members)[1..]
  }

  // ---- Reading it back ------------------------------------------------------------------------------

  /** The second character of an escape tells which kind it is, and none begins like a plain character. */
  lemma EscapeShape(c: char)
    ensures IsEscaped(c) <==> Escape(c)[0] == '\\'
    ensures Escape(c)[0] != '\"'
    ensures !IsEscaped(c) ==> Escape(c) == [c]
    ensures IsEscaped(c) ==> |Escape(c)| == 2 || |Escape(c)| == 6
    ensures IsEscaped(c) ==> (|Escape(c)| == 6 <==> Escape(c)[1] == 'u')
  {
  }

  lemma HexDigitDistinct(m: nat, n: nat)
    requires m < 16 && n < 16 && HexDigit(m) == HexDigit(n)
    ensures m == n
  {
    var digits := "0123456789abcdef";
    assert forall i, j | 0 <= i < j < 16 :: digits[i] != digits[j];
  }

  /** Different characters are written differently. */
  lemma EscapeDistinct(c: char, d: char)
    requires Escape(c) == Escape(d)
    ensures c == d
  {
    EscapeShape(c);
    EscapeShape(d);
    if IsEscaped(c) && |Escape(c)| == 2 {
      assert Escape(c)[1] == Escape(d)[1];
    } else if IsEscaped(c) {
      assert Escape(c)[2..] == Escape(d)[2..];
      LongEscapeDistinct(c, d);
    }
  }

  lemma LongEscapeDistinct(c: char, d: char)
    requires IsEscaped(c) && IsEscaped(d) && |Escape(c)| == |Escape(d)| == 6 && Escape(c) == Escape(d)
    ensures c == d
  {
    assert Escape(c)[2] == Escape(d)[2] && Escape(c)[4] == Escape(d)[4] && Escape(c)[5] == Escape(d)[5];
    if c != '\U{2028}' && c != '\U{2029}' && d != '\U{2028}' && d != '\U{2029}' {
      HexDigitDistinct(c as int / 16, d as int / 16);
      HexDigitDistinct(c as int % 16, d as int % 16);
      assert c as int == d as int;
    }
  }

  /** The code of a character is known by where it starts: what follows cannot be taken for part of it. */
  lemma EscapePrefixFree(c: char, d: char, x: string, y: string)
    requires Escape(c) + x == Escape(d) + y
    ensures c == d && x == y
  {
    hide Escape, IsEscaped;
    EscapeShape(c);
    EscapeShape(d);
    var text := Escape(c) + x;
    assert text[0] == Escape(c)[0] == Escape(d)[0];
    assert IsEscaped(c) ==> text[1] == Escape(c)[1] == Escape(d)[1];
    assert |Escape(c)| == |Escape(d)|;
    assert Escape(c) == text[..|Escape(c)|] == Escape(d);
    assert x == text[|Escape(c)|..] == y;
    EscapeDistinct(c, d);
  }

  lemma FirstCharacter(s: string, x: string)
    ensures (Escaped(s) + "\"" + x)[0] == '\"' <==> s == ""
  {
    if s != "" {
      EscapeShape(s[0]);
      assert (Escaped(s) + "\"" + x)[0] == Escape(s[0])[0];
    }
  }

  /** A quoted string ends where its closing quote is, so two texts that begin alike quote the same string. */
  lemma {:induction false} EscapedPrefixFree(s: string, t: string, x: string, y: string)
    requires Escaped(s) + "\"" + x == Escaped(t) + "\"" + y
    ensures s == t && x == y
  {
    hide Escape, IsEscaped;
    var text := Escaped(s) + "\"" + x;
    FirstCharacter(s, x);
    FirstCharacter(t, y);
    if s == "" {
      assert x == text[1..] == y;
    } else {
      var left, right := Escaped(s[1..]) + "\"" + x, Escaped(t[1..]) + "\"" + y;
      assert text == Escape(s[0]) + left == Escape(t[0]) + right;
      EscapePrefixFree(s[0], t[0], left, right);
      EscapedPrefixFree(s[1..], t[1..], x, y);
      assert s == [s[0]] + s[1..] && t == [t[0]] + t[1..];
    }
  }

  lemma QuotedPrefixFree(s: string, t: string, x: string, y: string)
    requires Quoted(s) + x == Quoted(t) + y
    ensures s == t && x == y
  {
    hide Escaped;
    var text := Quoted(s) + x;
    assert text[1..] == Escaped(s) + "\"" + x == Escaped(t) + "\"" + y;
    EscapedPrefixFree(s, t, x, y);
  }

  lemma {:induction false} ObjectTailInjective(a: seq<Member>, b: seq<Member>)
    requires ObjectTail(a) == ObjectTail(b)
    ensures a == b
  {
    hide Quoted;
    if a == [] || b == [] {
      assert ObjectTail(a)[0] == '}' <==> a == [];
      assert ObjectTail(b)[0] == '}' <==> b == [];
    } else {
      var afterA, afterB := ":" + Quoted(a[0].value) + ObjectTail(a[1..]), ":" + Quoted(b[0].value) + ObjectTail(b[1..]);
      assert ObjectTail(a)[1..] == Quoted(a[0].name) + afterA;
      assert ObjectTail(b)[1..] == Quoted(b[0].name) + afterB;
      QuotedPrefixFree(a[0].name, b[0].name, afterA, afterB);
      assert afterA[1..] == Quoted(a[0].value) + ObjectTail(a[1..]);
      assert afterB[1..] == Quoted(b[0].value) + ObjectTail(b[1..]);
      QuotedPrefixFree(a[0].value, b[0].value, ObjectTail(a[1..]), ObjectTail(b[1..]));
      ObjectTailInjective(a[1..], b[1..]);
      assert a == [a[0]] + a[1..] && b == [b[0]] + b[1..];
    }
  }

  /** Different lists of members are written differently. */
  lemma ObjectInjective(a: seq<Member>, b: seq<Member>)
    requires a != [] && b != [] && Object(a) == Object(b)
    ensures a == b
  {
    assert ObjectTail(a) == "," + Object(a)[1..];
    assert ObjectTail(b) == "," + Object(b)[1..];
    ObjectTailInjective(a, b);
  }
}

/** String helpers shared by the pages: JavaScript's `trim`, the `\s` class,
    the `isEmail` pattern and the whitespace strip used for `tel:` links. */
module Text {

  datatype Option<+T> = None | Some(value: T)

  /** `Number(s)` as an abstract partial function: `None` when the result is
      NaN or infinite, `Some(x)` when it is a finite number. */
  type Parser = string -> Option<real>

  /** The characters JavaScript's `trim` removes and the regular-expression
      class `\s` matches: WhiteSpace (tab, vertical tab, form feed, the byte
      order mark and the Unicode space separators) and LineTerminator. */
  predicate IsWhitespace(c: char) {
    || c == '\t' || c == '\n' || c == '\U{B}' || c == '\U{C}' || c == '\r'
    || c == ' ' || c == '\U{A0}' || c == '\U{1680}'
    || ('\U{2000}' <= c <= '\U{200A}')
    || c == '\U{2028}' || c == '\U{2029}' || c == '\U{202F}' || c == '\U{205F}'
    || c == '\U{3000}' || c == '\U{FEFF}'
  }

  predicate AllWhitespace(s: string) {
    forall i :: 0 <= i < |s| ==> IsWhitespace(s[i])
  }

  predicate NoWhitespace(s: string) {
    forall i :: 0 <= i < |s| ==> !IsWhitespace(s[i])
  }

  /** Drops the leading whitespace: the result is a suffix of `s` that does not
      start with whitespace, and everything dropped is whitespace. */
  function TrimStart(s: string): (r: string)
    ensures |r| <= |s| && r == s[|s| - |r|..]
    ensures AllWhitespace(s[..|s| - |r|])
    ensures r == [] || !IsWhitespace(r[0])
  {
    if s != [] && IsWhitespace(s[0]) then
      var r := TrimStart(s[1..]);
      var n := |s| - |r|;
      assert s[n..] == s[1..][n - 1..];
      assert AllWhitespace(s[..n]) by {
        forall i | 0 < i < n ensures IsWhitespace(s[i]) {
          assert s[i] == s[1..][..n - 1][i - 1];
        }
      }
      r
    else s
  }

  /** Drops the trailing whitespace: the result is a prefix of `s` that does
      not end with whitespace, and everything dropped is whitespace. */
  function TrimEnd(s: string): (r: string)
    ensures |r| <= |s| && r == s[..|r|]
    ensures AllWhitespace(s[|r|..])
    ensures r == [] || !IsWhitespace(r[|r| - 1])
  {
    if s != [] && IsWhitespace(s[|s| - 1]) then TrimEnd(s[..|s| - 1]) else s
  }

  /** `String.prototype.trim`: a piece of `s` with whitespace at neither
      end, and `s` itself when it already has none there. */
  function Trim(s: string): (r: string)
    ensures |r| <= |s|
    ensures r == [] || (!IsWhitespace(r[0]) && !IsWhitespace(r[|r| - 1]))
    ensures s == [] || (!IsWhitespace(s[0]) && !IsWhitespace(s[|s| - 1])) ==> r == s
  {
    TrimEnd(TrimStart(s))
  }

  lemma {:induction false} TrimStartOfBlank(s: string)
    requires AllWhitespace(s)
    ensures TrimStart(s) == []
  {
    if s != [] {
      assert AllWhitespace(s[1..]) by {
        forall i | 0 <= i < |s| - 1 ensures IsWhitespace(s[1..][i]) { assert s[1..][i] == s[i + 1]; }
      }
      TrimStartOfBlank(s[1..]);
    }
  }

  /** A field is blank (`!s.trim()`) exactly when it holds only whitespace. */
  lemma TrimEmptyIff(s: string)
    ensures Trim(s) == [] <==> AllWhitespace(s)
  {
    var t := TrimStart(s);
    if Trim(s) == [] {
      assert t[0..] == t;
      assert t == [];
      assert s[..|s|] == s;
    }
    if AllWhitespace(s) {
      TrimStartOfBlank(s);
    }
  }

  /** Trimming is idempotent. */
  lemma {:induction false} TrimIdempotent(s: string)
    ensures Trim(Trim(s)) == Trim(s)
  {
    var t := Trim(s);
    if t != [] {
      assert !IsWhitespace(t[|t| - 1]);
      assert TrimEnd(t) == t;
      assert !IsWhitespace(t[0]) by {
        var u := TrimStart(s);
        assert t == u[..|t|];
        assert t[0] == u[0];
      }
      assert TrimStart(t) == t;
    }
  }

  /** The character class `[^\s@]`. */
  predicate PlainChar(c: char) {
    !IsWhitespace(c) && c != '@'
  }

  predicate AllPlain(s: string) {
    forall i :: 0 <= i < |s| ==> PlainChar(s[i])
  }

  /** The language of the regular expression `^[^\s@]+@[^\s@]+\.[^\s@]+$`. */
  ghost predicate MatchesEmailPattern(s: string) {
    exists a: string, b: string, c: string
      :: a != [] && b != [] && c != [] && AllPlain(a) && AllPlain(b) && AllPlain(c)
         && s == a + ['@'] + b + ['.'] + c
  }

  /** Index of the first occurrence of `x` in `s`, or `|s|` when there is none. */
  function IndexOf(s: string, x: char): (i: nat)
    ensures i <= |s|
    ensures i < |s| ==> s[i] == x
    ensures forall j :: 0 <= j < i ==> s[j] != x
  {
    if s == [] then 0
    else if s[0] == x then 0
    else 1 + IndexOf(s[1..], x)
  }

  lemma {:induction false} IndexOfFirst(s: string, x: char, p: nat)
    requires p < |s| && s[p] == x
    requires forall j :: 0 <= j < p ==> s[j] != x
    ensures IndexOf(s, x) == p
  {
    if p > 0 {
      IndexOfFirst(s[1..], x, p - 1);
    }
  }

  /** `[^\s@]+\.[^\s@]+`: no whitespace or `@`, and a dot with at least one
      character on each side. */
  predicate DomainShape(d: string) {
    AllPlain(d) && exists k :: 0 < k < |d| - 1 && d[k] == '.'
  }

  /** The email test on an already trimmed string, decided by splitting at the
      first `@`. */
  predicate EmailShape(s: string) {
    var i := IndexOf(s, '@');
    0 < i < |s| && AllPlain(s[..i]) && DomainShape(s[i + 1..])
  }

  /** `isEmail(v)`: the trimmed value matches the email pattern. */
  predicate IsEmail(v: string) {
    EmailShape(Trim(v))
  }

  /** An empty field is not an email address. */
  lemma EmptyIsNotEmail()
    ensures !IsEmail("")
  {
    assert Trim("") == "";
    assert IndexOf("", '@') == 0;
  }

  lemma EmailShapeMatches(s: string)
    requires EmailShape(s)
    ensures MatchesEmailPattern(s)
  {
    var i := IndexOf(s, '@');
    var d := s[i + 1..];
    var k :| 0 < k < |d| - 1 && d[k] == '.';
    PlainSlice(d, 0, k);
    PlainSlice(d, k + 1, |d|);
    assert d == d[0..k] + ['.'] + d[k + 1..|d|];
    assert s == s[..i] + ['@'] + d;
    PatternWitness(s, s[..i], d[0..k], d[k + 1..|d|]);
  }

  /** A piece of a string of plain characters is plain. */
  lemma PlainSlice(d: string, lo: nat, hi: nat)
    requires AllPlain(d) && lo <= hi <= |d|
    ensures AllPlain(d[lo..hi])
  {
    forall j | 0 <= j < hi - lo ensures PlainChar(d[lo..hi][j]) { assert d[lo..hi][j] == d[lo + j]; }
  }

  lemma PatternWitness(s: string, a: string, b: string, c: string)
    requires a != [] && b != [] && c != [] && AllPlain(a) && AllPlain(b) && AllPlain(c)
    requires s == a + ['@'] + b + ['.'] + c
    ensures MatchesEmailPattern(s)
  {
  }

  lemma PatternHasEmailShape(a: string, b: string, c: string)
    requires a != [] && b != [] && c != []
    requires AllPlain(a) && AllPlain(b) && AllPlain(c)
    ensures EmailShape(a + ['@'] + b + ['.'] + c)
  {
    var s := a + ['@'] + b + ['.'] + c;
    var d := b + ['.'] + c;
    assert s == a + ['@'] + d;
    assert s[|a|] == '@';
    assert forall j :: 0 <= j < |a| ==> s[j] == a[j];
    IndexOfFirst(s, '@', |a|);
    assert s[..|a|] == a;
    assert s[|a| + 1..] == d;
    assert d[|b|] == '.';
    assert AllPlain(d) by {
      forall j | 0 <= j < |d| ensures PlainChar(d[j]) {
        if j < |b| { assert d[j] == b[j]; }
        else if j > |b| { assert d[j] == c[j - |b| - 1]; }
      }
    }
  }

  /** The split at the first `@` decides exactly the regular expression. */
  lemma EmailShapeIff(s: string)
    ensures EmailShape(s) <==> MatchesEmailPattern(s)
  {
    if EmailShape(s) {
      EmailShapeMatches(s);
    }
    if MatchesEmailPattern(s) {
      var a: string, b: string, c: string :| a != [] && b != [] && c != [] && AllPlain(a)
        && AllPlain(b) && AllPlain(c) && s == a + ['@'] + b + ['.'] + c;
      PatternHasEmailShape(a, b, c);
    }
  }

  /** The email test on a trimmed string in the words of the form: exactly
      one `@`, no whitespace, a non-empty local part, and after the `@` a dot
      with a character on each side. */
  ghost predicate EmailRules(s: string) {
    var i := IndexOf(s, '@');
    && NoWhitespace(s)
    && 0 < i < |s|
    && (forall j :: i < j < |s| ==> s[j] != '@')
    && (exists k :: i + 1 < k < |s| - 1 && s[k] == '.')
  }

  lemma EmailShapeRules(s: string)
    requires EmailShape(s)
    ensures EmailRules(s)
  {
    var i := IndexOf(s, '@');
    var d := s[i + 1..];
    var k :| 0 < k < |d| - 1 && d[k] == '.';
    assert s[i + 1 + k] == '.';
    forall j | 0 <= j < |s| ensures !IsWhitespace(s[j]) {
      if j < i { assert s[j] == s[..i][j]; }
      else if j > i { assert s[j] == d[j - i - 1]; }
    }
    forall j | i < j < |s| ensures s[j] != '@' { assert s[j] == d[j - i - 1]; }
  }

  lemma RulesEmailShape(s: string)
    requires EmailRules(s)
    ensures EmailShape(s)
  {
    var i := IndexOf(s, '@');
    var k :| i + 1 < k < |s| - 1 && s[k] == '.';
    var d := s[i + 1..];
    assert d[k - i - 1] == '.';
    assert AllPlain(s[..i]);
    assert AllPlain(d) by {
      forall j | 0 <= j < |d| ensures PlainChar(d[j]) { assert d[j] == s[i + 1 + j]; }
    }
  }

  /** `isEmail(v)` holds exactly when the trimmed value follows the rules. */
  lemma EmailCharacterisation(v: string)
    ensures IsEmail(v) <==> EmailRules(Trim(v))
  {
    if IsEmail(v) { EmailShapeRules(Trim(v)); }
    if EmailRules(Trim(v)) { RulesEmailShape(Trim(v)); }
  }

  /** `s.replace(/\s+/g, "")`: removes every whitespace character. */
  function StripWhitespace(s: string): (r: string)
    ensures NoWhitespace(r)
    ensures |r| <= |s|
    ensures NoWhitespace(s) ==> r == s
    ensures forall i :: 0 <= i < |r| ==> r[i] in s
  {
    if s == [] then []
    else if IsWhitespace(s[0]) then StripWhitespace(s[1..])
    else [s[0]] + StripWhitespace(s[1..])
  }

  /** Stripping keeps every non-whitespace character in order: it distributes
      over concatenation. */
  lemma {:induction false} StripConcat(s: string, t: string)
    ensures StripWhitespace(s + t) == StripWhitespace(s) + StripWhitespace(t)
  {
    if s != [] {
      var h := if IsWhitespace(s[0]) then [] else [s[0]];
      assert (s + t)[0] == s[0] && (s + t)[1..] == s[1..] + t;
      assert StripWhitespace(s + t) == h + StripWhitespace(s[1..] + t);
      StripConcat(s[1..], t);
    } else {
      assert s + t == t;
    }
  }

  /** Every character that is not whitespace survives the strip. */
  lemma StripKeeps(s: string, i: nat)
    requires i < |s| && !IsWhitespace(s[i])
    ensures s[i] in StripWhitespace(s)
  {
    assert s == s[..i] + [s[i]] + s[i + 1..];
    StripConcat(s[..i] + [s[i]], s[i + 1..]);
    StripConcat(s[..i], [s[i]]);
    assert StripWhitespace([s[i]]) == [s[i]];
  }

  /** The UTF-16 code units of one character: two for a character outside
      the Basic Multilingual Plane (a surrogate pair), one otherwise. */
  function Utf16Units(c: char): (n: nat)
    ensures n == 1 <==> c < '\U{10000}'
    ensures 1 <= n <= 2
  {
    if c < '\U{10000}' then 1 else 2
  }

  /** A string's `length` as JavaScript counts it: UTF-16 code units. */
  function Utf16Length(s: string): (n: nat)
    ensures |s| <= n <= 2 * |s|
    ensures n == |s| <==> forall i :: 0 <= i < |s| ==> s[i] < '\U{10000}'
  {
    if s == [] then 0
    else
      var n := Utf16Units(s[0]) + Utf16Length(s[1..]);
      assert (forall i :: 0 <= i < |s| ==> s[i] < '\U{10000}') <==>
        s[0] < '\U{10000}' && forall i :: 0 <= i < |s[1..]| ==> s[1..][i] < '\U{10000}' by {
        if forall i :: 0 <= i < |s[1..]| ==> s[1..][i] < '\U{10000}' {
          forall i | 1 <= i < |s| ensures s[i] < '\U{10000}' { assert s[i] == s[1..][i - 1]; }
        }
      }
      n
  }

  /** The code-unit length adds up over concatenation. */
  lemma {:induction false} Utf16LengthConcat(s: string, t: string)
    ensures Utf16Length(s + t) == Utf16Length(s) + Utf16Length(t)
  {
    if s == [] {
      assert s + t == t;
    } else {
      assert (s + t)[0] == s[0] && (s + t)[1..] == s[1..] + t;
      Utf16LengthConcat(s[1..], t);
    }
  }

  /** `toLowerCase` on the ASCII letters. */
  function ToLowerChar(c: char): (r: char)
    ensures 'A' <= c <= 'Z' ==> 'a' <= r <= 'z' && r as int - 'a' as int == c as int - 'A' as int
    ensures !('A' <= c <= 'Z') ==> r == c
  {
    if 'A' <= c <= 'Z' then (c as int + 32) as char else c
  }

  function ToLower(s: string): (r: string)
    ensures |r| == |s|
    ensures forall i :: 0 <= i < |s| ==> r[i] == ToLowerChar(s[i])
  {
    if s == [] then [] else [ToLowerChar(s[0])] + ToLower(s[1..])
  }

  /** The email comparison key of the supplier form: trimmed, lower case. */
  function EmailKey(s: string): (k: string)
    ensures |k| == |Trim(s)|
    ensures forall i :: 0 <= i < |k| ==> !('A' <= k[i] <= 'Z')
  {
    ToLower(Trim(s))
  }

  /** Lower-casing never turns a character into whitespace. */
  lemma LowerNotWhitespace(c: char)
    requires !IsWhitespace(c)
    ensures !IsWhitespace(ToLowerChar(c))
  {
  }

  /** Lower-casing twice is lower-casing once. */
  lemma {:induction false} ToLowerIdempotent(s: string)
    ensures ToLower(ToLower(s)) == ToLower(s)
  {
    var l := ToLower(s);
    forall i | 0 <= i < |s| ensures ToLower(l)[i] == l[i] {
      assert l[i] == ToLowerChar(s[i]);
    }
  }

  /** Taking the key of a key changes nothing: it is already trimmed and in
      lower case. */
  lemma EmailKeyIdempotent(s: string)
    ensures EmailKey(EmailKey(s)) == EmailKey(s)
  {
    var t := Trim(s);
    var k := ToLower(t);
    if k != [] {
      LowerNotWhitespace(t[0]);
      LowerNotWhitespace(t[|t| - 1]);
    }
    assert Trim(k) == k;
    ToLowerIdempotent(t);
  }

}

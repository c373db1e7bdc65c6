/**
 The text primitives the daemon uses: decimal numbers as `format!` prints and
 `str::parse::<usize>` reads them, `split_whitespace`, and lines.
 A `char` stands for one byte of ASCII text.
 */
module Text {
  import opened Wrappers

  const USIZE_MAX := 0xFFFF_FFFF_FFFF_FFFF

  // ----- decimal numbers -----

  predicate IsDigit(c: char) {
    '0' <= c <= '9'
  }

  function Digit(d: nat): char
    requires d < 10
  {
    '0' + d as char
  }

  function Decimal(n: nat): (s: string)
    ensures |s| > 0
    ensures forall k :: 0 <= k < |s| ==> IsDigit(s[k])
  {
    if n < 10 then [Digit(n)] else Decimal(n / 10) + [Digit(n % 10)]
  }

  predicate AllDigits(s: string) {
    forall k :: 0 <= k < |s| ==> IsDigit(s[k])
  }

  function Value(s: string): nat
    requires AllDigits(s)
  {
    if s == "" then 0
    else
      var n := |s| - 1;
      Value(s[..n]) * 10 + (s[n] as int - '0' as int)
  }

  /** One leading plus sign is accepted; an empty, non-numeric or too large number is an error. */
  function ParseUsize(s: string): Option<nat> {
    var digits := if s != "" && s[0] == '+' then s[1..] else s;
    if digits == "" || !AllDigits(digits) || Value(digits) > USIZE_MAX then None else Some(Value(digits))
  }

  lemma {:induction false} ValueOfDecimal(n: nat)
    ensures Value(Decimal(n)) == n
  {
    if n >= 10 {
      ValueOfDecimal(n / 10);
      var s := Decimal(n);
      assert s[..|s| - 1] == Decimal(n / 10);
    } else {
      var s := Decimal(n);
      assert s[..0] == "";
    }
  }

  /** Printing then parsing gives the number back, for every number a `usize` can hold. */
  lemma ParseOfDecimal(n: nat)
    ensures ParseUsize(Decimal(n)) == if n <= USIZE_MAX then Some(n) else None
  {
    ValueOfDecimal(n);
    assert Decimal(n)[0] != '+';
  }

  /** A text is read as `n` exactly if it is the digits of `n`, perhaps after one plus sign, and `n` fits 64 bits. */
  lemma ParseUsizeIsExact(s: string, n: nat)
    ensures ParseUsize(s) == Some(n) <==>
            exists digits: string ::
              (s == digits || s == "+" + digits) && digits != "" && AllDigits(digits) && Value(digits) == n
              && n < 0x1_0000_0000_0000_0000
  {
    if s != "" && s[0] == '+' {
      assert s == "+" + s[1..];
      forall digits: string | s == digits || s == "+" + digits ensures !AllDigits(digits) || digits == s[1..] {
        assert s == digits ==> digits[0] == '+';
        assert s == "+" + digits ==> digits == s[1..];
      }
    } else {
      forall digits: string | s == digits || s == "+" + digits ensures digits == s {
        assert ("+" + digits)[0] == '+';
      }
    }
  }

  /** The value of digits is positional, most significant first. */
  lemma ValueIsPositional(s: string, c: char)
    requires AllDigits(s) && '0' <= c <= '9'
    ensures Value([]) == 0 && Value(s + [c]) == 10 * Value(s) + (c as int - 48)
  {
    assert (s + [c])[..|s|] == s;
  }

  /** Decimal text has no leading zero. */
  lemma {:induction false} DecimalHasNoLeadingZero(n: nat)
    ensures Decimal(n)[0] == '0' ==> n == 0
  {
    if n >= 10 {
      DecimalHasNoLeadingZero(n / 10);
      assert Decimal(n)[0] == Decimal(n / 10)[0];
    }
  }

  lemma DecimalExamples()
    ensures Decimal(0) == "0" && Decimal(7) == "7" && Decimal(10) == "10" && Decimal(907) == "907"
  {
    assert Decimal(90) == Decimal(9) + [Digit(0)];
  }

  // ----- whitespace -----

  /** The characters with the White_Space property of Unicode. */
  predicate IsWhitespace(c: char) {
    || '\U{9}' <= c <= '\U{D}' || c == ' ' || c == '\U{85}' || c == '\U{A0}' || c == '\U{1680}'
    || '\U{2000}' <= c <= '\U{200A}' || c == '\U{2028}' || c == '\U{2029}' || c == '\U{202F}'
    || c == '\U{205F}' || c == '\U{3000}'
  }

  /** They are these and no others: among ASCII tab, newline, vertical tab, form feed, carriage return and space. */
  lemma WhitespaceIsExactly(c: char)
    ensures IsWhitespace(c) <==>
            c as int in {9, 10, 11, 12, 13, 32, 133, 160, 5760, 8232, 8233, 8239, 8287, 12288}
            || 8192 <= c as int <= 8202
  {
  }

  predicate Blank(s: string) {
    forall k :: 0 <= k < |s| ==> IsWhitespace(s[k])
  }

  /** A nonempty run of characters other than whitespace. */
  predicate IsWord(s: string) {
    s != "" && forall k :: 0 <= k < |s| ==> !IsWhitespace(s[k])
  }

  function WordLength(s: string): (n: nat)
    ensures n <= |s|
    ensures forall k :: 0 <= k < n ==> !IsWhitespace(s[k])
    ensures n < |s| ==> IsWhitespace(s[n])
  {
    if s == "" || IsWhitespace(s[0]) then 0 else 1 + WordLength(s[1..])
  }

  /** `split_whitespace`. */
  function Tokens(s: string): (words: seq<string>)
    ensures forall k :: 0 <= k < |words| ==> IsWord(words[k])
    decreases |s|
  {
    if s == "" then []
    else if IsWhitespace(s[0]) then Tokens(s[1..])
    else
      var n := WordLength(s);
      [s[..n]] + Tokens(s[n..])
  }

  lemma {:induction false} BlankVanishes(blank: string, rest: string)
    requires Blank(blank)
    ensures Tokens(blank + rest) == Tokens(rest)
  {
    if blank == "" {
      assert blank + rest == rest;
    } else {
      assert (blank + rest)[1..] == blank[1..] + rest;
      BlankVanishes(blank[1..], rest);
    }
  }

  lemma {:induction false} WordEndsAtBlank(word: string, rest: string)
    requires (word == "" || IsWord(word)) && (rest == "" || IsWhitespace(rest[0]))
    ensures WordLength(word + rest) == |word|
  {
    if word == "" {
      assert word + rest == rest;
    } else {
      assert (word + rest)[1..] == word[1..] + rest;
      WordEndsAtBlank(word[1..], rest);
    }
  }

  /** A word set off by whitespace is exactly one token. */
  lemma WordIsToken(blank: string, word: string, rest: string)
    requires Blank(blank) && IsWord(word) && (rest == "" || IsWhitespace(rest[0]))
    ensures Tokens(blank + word + rest) == [word] + Tokens(rest)
  {
    assert blank + word + rest == blank + (word + rest);
    BlankVanishes(blank, word + rest);
    WordEndsAtBlank(word, rest);
    assert (word + rest)[..|word|] == word && (word + rest)[|word|..] == rest;
  }

  lemma BlankHasNoTokens(blank: string)
    requires Blank(blank)
    ensures Tokens(blank) == []
  {
    BlankVanishes(blank, "");
    assert blank + "" == blank;
  }

  lemma DecimalIsWord(n: nat)
    ensures IsWord(Decimal(n))
  {
  }

  /** Words joined by single blanks, as records are printed. */
  function Joined(words: seq<string>): string {
    if words == [] then "" else if |words| == 1 then words[0] else words[0] + " " + Joined(words[1..])
  }

  lemma WordThenTokens(w: string, text: string)
    requires IsWord(w)
    ensures Tokens(w + " " + text) == [w] + Tokens(text)
  {
    WordIsToken("", w, " " + text);
    assert "" + w + (" " + text) == w + " " + text;
    BlankVanishes(" ", text);
  }

  /** Splitting joined words gives them back, whatever blanks follow. */
  lemma {:induction false} TokensOfJoined(words: seq<string>, tail: string)
    requires (forall k :: 0 <= k < |words| ==> IsWord(words[k])) && Blank(tail)
    ensures Tokens(Joined(words) + tail) == words
  {
    if words == [] {
      assert Joined(words) + tail == tail;
      BlankHasNoTokens(tail);
    } else if |words| == 1 {
      WordIsToken("", words[0], tail);
      assert "" + words[0] + tail == Joined(words) + tail;
      BlankHasNoTokens(tail);
      assert [words[0]] + [] == words;
    } else {
      var rest := Joined(words[1..]) + tail;
      assert Joined(words) + tail == words[0] + " " + rest;
      WordThenTokens(words[0], rest);
      TokensOfJoined(words[1..], tail);
    }
  }

  lemma {:induction false} WordStopsInside(a: string, rest: string)
    requires rest != "" && IsWhitespace(rest[0])
    ensures WordLength(a + rest) == WordLength(a)
  {
    if a == "" {
      assert a + rest == rest;
    } else if !IsWhitespace(a[0]) {
      assert (a + rest)[1..] == a[1..] + rest;
      WordStopsInside(a[1..], rest);
    }
  }

  /** Any whitespace character separates the words before it from those after it. */
  lemma {:induction false} WhitespaceSeparates(a: string, c: char, b: string)
    requires IsWhitespace(c)
    ensures Tokens(a + [c] + b) == Tokens(a) + Tokens(b)
    decreases |a|
  {
    if a == "" {
      BlankVanishes([c], b);
      assert a + [c] + b == [c] + b;
    } else if IsWhitespace(a[0]) {
      assert (a + [c] + b)[1..] == a[1..] + [c] + b;
      WhitespaceSeparates(a[1..], c, b);
    } else {
      FirstWordSeparates(a, c, b);
    }
  }

  lemma FirstWordSeparates(a: string, c: char, b: string)
    requires IsWhitespace(c) && a != "" && !IsWhitespace(a[0])
    ensures Tokens(a + [c] + b) == Tokens(a) + Tokens(b)
    decreases |a|, 0
  {
    var n, text := WordLength(a), a + [c] + b;
    WordStopsInside(a, [c] + b);
    assert text == a + ([c] + b);
    assert text[..n] == a[..n] && text[n..] == a[n..] + [c] + b;
    assert Tokens(text) == [text[..n]] + Tokens(text[n..]);
    WhitespaceSeparates(a[n..], c, b);
  }

  /** What separates the words of the kernel's tables. */
  lemma TabAndSpaceSeparate(a: string, b: string)
    ensures Tokens(a + "\t" + b) == Tokens(a) + Tokens(b)
    ensures Tokens(a + " " + b) == Tokens(a) + Tokens(b)
    ensures Tokens(a + "\n" + b) == Tokens(a) + Tokens(b)
  {
    WhitespaceSeparates(a, '\t', b);
    WhitespaceSeparates(a, ' ', b);
    WhitespaceSeparates(a, '\n', b);
  }

  /** A text without whitespace is one word, or none. */
  lemma WordAlone(w: string)
    requires forall k :: 0 <= k < |w| ==> !IsWhitespace(w[k])
    ensures Tokens(w) == if w == "" then [] else [w]
  {
    if w != "" {
      WordIsToken("", w, "");
      assert "" + w + "" == w;
    }
  }
}

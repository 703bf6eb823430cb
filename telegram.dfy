/** Escaping of untrusted text for Telegram's MarkdownV2 parse mode
    (src/telegram.ts). Both escapers run a fixed list of `replaceAll`
    passes over their argument; the lemmas here say which single
    per-character map those passes amount to. */
module Telegram {
  import opened Strings

  /** The characters `markdownEscape` protects, in the order of its passes. */
  const MarkdownReserved: seq<char> :=
    ['_', '*', '[', ']', '(', ')', '~', '`', '>', '#', '+', '-', '=', '|', '{', '}', '.', '!']

  /** `MarkdownReserved` with the backslash added as the first pass, so that a
      backslash already in the text is escaped too. */
  const MarkdownReservedFixed: seq<char> := ['\\'] + MarkdownReserved

  /** The characters `markdownUrlEscape` protects, in the order of its passes. */
  const UrlReserved: seq<char> := [')', '\\']

  /** The same two characters in the order that escapes each of them once
      (the backslash pass first, so the backslashes it inserts are never seen again). */
  const UrlReservedFixed: seq<char> := ['\\', ')']

  /** `s.replaceAll(pat, rep)` for a one-character pattern: each occurrence of
      `pat`, left to right, becomes `rep`, and inserted text is not rescanned.
      The replacement strings used here hold no `$`, so no substitution
      patterns apply. */
  function ReplaceAll(s: string, pat: char, rep: string): (r: string)
    ensures pat !in s ==> r == s
  {
    if s == [] then []
    else (if s[0] == pat then rep else [s[0]]) + ReplaceAll(s[1..], pat, rep)
  }

  /** The replacement every pass uses: a backslash, then the character. */
  function Backslashed(c: char): string { ['\\', c] }

  /** The text after one `replaceAll` pass per character of `chars`, in list order. */
  function Passes(s: string, chars: seq<char>): string
    decreases |chars|
  {
    if chars == [] then s
    else
      var e := chars[|chars| - 1];
      ReplaceAll(Passes(s, chars[..|chars| - 1]), e, Backslashed(e))
  }

  /** The per-character reading of an escaper: a character of `chars` gets
      one backslash in front of it, any other character is kept. */
  function EscapeChar(c: char, chars: seq<char>): string
  {
    if c in chars then Backslashed(c) else [c]
  }

  function Escaped(s: string, chars: seq<char>): string
  {
    if s == [] then [] else EscapeChar(s[0], chars) + Escaped(s[1..], chars)
  }

  /** `markdownEscape`, as a function of its input: one character longer per
      reserved character. */
  function MarkdownEscaped(t: string): (r: string)
    ensures |r| == |t| + CountIn(t, MarkdownReserved)
  {
    EscapedLength(t, MarkdownReserved);
    Escaped(t, MarkdownReserved)
  }

  /** What `markdownUrlEscape` as written does to one character: `)` becomes
      two backslashes and the parenthesis, a backslash becomes two. */
  function UrlCharAsWritten(c: char): string
  {
    if c == ')' then ['\\', '\\', ')'] else if c == '\\' then ['\\', '\\'] else [c]
  }

  /** `markdownUrlEscape`, as a function of its input: two characters longer
      per `)` and one per backslash. */
  function MarkdownUrlEscaped(t: string): (r: string)
    ensures |r| == |t| + 2 * CountIn(t, [')']) + CountIn(t, ['\\'])
  {
    if t == [] then [] else UrlCharAsWritten(t[0]) + MarkdownUrlEscaped(t[1..])
  }

  // ---------------------------------------------------------------------
  // The loops

  /** The `forEach` over an escape list: `text` is reassigned to the result
      of one `replaceAll` pass per listed character. */
  method ReplaceEach(text: string, chars: seq<char>) returns (r: string)
    ensures r == Passes(text, chars)
  {
    r := text;
    for i := 0 to |chars|
      invariant r == Passes(text, chars[..i])
    {
      var e := chars[i];
      assert chars[..i + 1][..i] == chars[..i];
      r := ReplaceAll(r, e, Backslashed(e));
    }
    assert chars[..|chars|] == chars;
  }

  /** `markdownEscape`: each of the 18 reserved characters gets one backslash
      in front of it, nothing else changes. */
  method MarkdownEscape(text: string) returns (r: string)
    ensures r == Escaped(text, MarkdownReserved)
  {
    r := ReplaceEach(text, MarkdownReserved);
    MarkdownReservedDistinct();
    PassesAreOneMap(text, MarkdownReserved);
  }

  /** `markdownUrlEscape` as written: the `)` pass runs first, so the backslash
      it inserts is doubled by the backslash pass. */
  method MarkdownUrlEscape(text: string) returns (r: string)
    ensures r == MarkdownUrlEscaped(text)
  {
    r := ReplaceEach(text, UrlReserved);
    UrlPassesAsWritten(text);
  }

  /** `markdownEscape` with the backslash pass added first: every reserved
      character and every backslash gets one backslash in front of it, so
      MarkdownV2's reading of the output is the input. */
  method MarkdownEscapeFixed(text: string) returns (r: string)
    ensures r == Escaped(text, MarkdownReservedFixed)
    ensures UnescapeAll(r) == text
  {
    r := ReplaceEach(text, MarkdownReservedFixed);
    MarkdownReservedFixedDistinct();
    PassesAreOneMap(text, MarkdownReservedFixed);
    UnescapeAllRoundTrip(text, MarkdownReservedFixed);
  }

  /** The URL escaper with its two passes in the order that protects `)` and
      `\` with exactly one backslash each. */
  method MarkdownUrlEscapeFixed(text: string) returns (r: string)
    ensures r == Escaped(text, UrlReservedFixed)
    ensures UnescapeAll(r) == text
  {
    r := ReplaceEach(text, UrlReservedFixed);
    PassesAreOneMap(text, UrlReservedFixed);
    UnescapeAllRoundTrip(text, UrlReservedFixed);
  }

  // ---------------------------------------------------------------------
  // Passes versus the per-character map

  lemma {:induction false} ReplaceAllConcat(a: string, b: string, pat: char, rep: string)
    ensures ReplaceAll(a + b, pat, rep) == ReplaceAll(a, pat, rep) + ReplaceAll(b, pat, rep)
  {
    if a == [] {
      assert a + b == b;
    } else {
      assert (a + b)[1..] == a[1..] + b;
      ReplaceAllConcat(a[1..], b, pat, rep);
    }
  }

  /** A single pass is the per-character map of its one character. */
  lemma {:induction false} OnePassIsEscaped(s: string, e: char)
    ensures ReplaceAll(s, e, Backslashed(e)) == Escaped(s, [e])
  {
    if s != [] {
      OnePassIsEscaped(s[1..], e);
    }
  }

  /** A further pass for a character that is neither a backslash nor escaped
      already adds that character to the escaped set: it leaves alone the
      backslashes and characters the earlier passes inserted. */
  lemma {:induction false} PassAfterEscaped(s: string, chars: seq<char>, e: char)
    requires e != '\\' && e !in chars
    ensures ReplaceAll(Escaped(s, chars), e, Backslashed(e)) == Escaped(s, chars + [e])
  {
    if s != [] {
      PassAfterEscaped(s[1..], chars, e);
      ReplaceAllConcat(EscapeChar(s[0], chars), Escaped(s[1..], chars), e, Backslashed(e));
      var c := EscapeChar(s[0], chars);
      if s[0] in chars {
        assert ReplaceAll(c, e, Backslashed(e)) == c by {
          assert c[1..][1..] == [];
        }
      } else {
        assert ReplaceAll(c, e, Backslashed(e)) == EscapeChar(s[0], chars + [e]) by {
          assert c[1..] == [];
        }
      }
    }
  }

  predicate Distinct(chars: seq<char>)
  {
    forall i, j :: 0 <= i < j < |chars| ==> chars[i] != chars[j]
  }

  lemma MarkdownReservedDistinct()
    ensures Distinct(MarkdownReserved) && BackslashOnlyFirst(MarkdownReserved)
  {
  }

  lemma MarkdownReservedFixedDistinct()
    ensures Distinct(MarkdownReservedFixed) && BackslashOnlyFirst(MarkdownReservedFixed)
  {
  }

  /** A backslash in the list, if any, is its first pass. */
  predicate BackslashOnlyFirst(chars: seq<char>)
  {
    forall i :: 0 < i < |chars| ==> chars[i] != '\\'
  }

  lemma {:induction false} EscapedNothing(s: string)
    ensures Escaped(s, []) == s
  {
    if s != [] {
      EscapedNothing(s[1..]);
    }
  }

  /** The sequential passes equal one per-character map whenever no character
      is listed twice and no pass after the first is for the backslash: no
      pass can then see a backslash that an earlier pass inserted. */
  lemma {:induction false} PassesAreOneMap(s: string, chars: seq<char>)
    requires Distinct(chars) && BackslashOnlyFirst(chars)
    ensures Passes(s, chars) == Escaped(s, chars)
  {
    if chars == [] {
      EscapedNothing(s);
    } else {
      var init, e := chars[..|chars| - 1], chars[|chars| - 1];
      assert init + [e] == chars;
      if init == [] {
        EscapedNothing(s);
        OnePassIsEscaped(s, e);
        assert chars == [e];
      } else {
        PassesAreOneMap(s, init);
        assert e !in init by {
          forall k | 0 <= k < |init| ensures init[k] != e {
            assert init[k] == chars[k];
          }
        }
        PassAfterEscaped(s, init, e);
      }
    }
  }

  /** With `)` escaped first, the backslash pass doubles every backslash,
      among them the ones the first pass put before each `)`. */
  lemma {:induction false} BackslashPassAfterParen(s: string)
    ensures ReplaceAll(Escaped(s, [')']), '\\', Backslashed('\\')) == MarkdownUrlEscaped(s)
  {
    if s != [] {
      BackslashPassAfterParen(s[1..]);
      var c := EscapeChar(s[0], [')']);
      ReplaceAllConcat(c, Escaped(s[1..], [')']), '\\', Backslashed('\\'));
      if s[0] == ')' {
        assert ReplaceAll(c, '\\', Backslashed('\\')) == UrlCharAsWritten(s[0]) by {
          assert c[1..][1..] == [];
        }
      } else {
        assert ReplaceAll(c, '\\', Backslashed('\\')) == UrlCharAsWritten(s[0]) by {
          assert c[1..] == [];
        }
      }
    }
  }

  /** `markdownUrlEscape`'s two passes, `)` then `\`, are the per-character
      map `UrlCharAsWritten`. */
  lemma {:induction false} UrlPassesAsWritten(s: string)
    ensures Passes(s, UrlReserved) == MarkdownUrlEscaped(s)
  {
    assert UrlReserved[..1] == [')'];
    assert UrlReserved[..0] == [];
    OnePassIsEscaped(s, ')');
    BackslashPassAfterParen(s);
  }

  // ---------------------------------------------------------------------
  // Properties of markdownEscape

  lemma {:induction false} EscapedLength(s: string, chars: seq<char>)
    ensures |Escaped(s, chars)| == |s| + CountIn(s, chars)
  {
    if s != [] {
      EscapedLength(s[1..], chars);
    }
  }

  /** The escaper changes its input exactly when the input holds a reserved character. */
  lemma {:induction false} MarkdownEscapedUnchangedIff(t: string)
    ensures MarkdownEscaped(t) == t <==> forall i :: 0 <= i < |t| ==> t[i] !in MarkdownReserved
  {
    EscapedLength(t, MarkdownReserved);
    CountInZero(t, MarkdownReserved);
    if forall i :: 0 <= i < |t| ==> t[i] !in MarkdownReserved {
      EscapedUnchanged(t, MarkdownReserved);
    }
  }

  lemma {:induction false} EscapedUnchanged(s: string, chars: seq<char>)
    requires forall i :: 0 <= i < |s| ==> s[i] !in chars
    ensures Escaped(s, chars) == s
  {
    if s != [] {
      assert s[0] !in chars;
      EscapedUnchanged(s[1..], chars);
    }
  }

  /** Escaping keeps every reserved character once and adds only backslashes,
      so when the backslash is not reserved the reserved count is unchanged. */
  lemma {:induction false} EscapedKeepsCount(s: string, chars: seq<char>, counted: seq<char>)
    requires '\\' !in counted
    ensures CountIn(Escaped(s, chars), counted) == CountIn(s, counted)
  {
    if s != [] {
      EscapedKeepsCount(s[1..], chars, counted);
      CountInConcat(EscapeChar(s[0], chars), Escaped(s[1..], chars), counted);
      var c := EscapeChar(s[0], chars);
      if s[0] in chars {
        assert c[1..][1..] == [];
      } else {
        assert c[1..] == [];
      }
    }
  }

  /** `markdownEscape` is not idempotent: on text with a reserved character,
      escaping twice gives a different (longer) text than escaping once. */
  lemma {:induction false} MarkdownEscapeNotIdempotent(t: string)
    requires exists i :: 0 <= i < |t| && t[i] in MarkdownReserved
    ensures MarkdownEscaped(MarkdownEscaped(t)) != MarkdownEscaped(t)
  {
    var e := MarkdownEscaped(t);
    CountInZero(t, MarkdownReserved);
    EscapedKeepsCount(t, MarkdownReserved, MarkdownReserved);
    EscapedLength(e, MarkdownReserved);
  }

  /** The first character of an escaped text is never a reserved character:
      it is a backslash or a character that was not reserved. */
  lemma {:induction false} EscapedStartsUnreserved(s: string, chars: seq<char>)
    requires s != [] && '\\' !in chars
    ensures Escaped(s, chars) != [] && Escaped(s, chars)[0] !in chars
  {
  }

  /** The inverse of `Escaped` for a set without the backslash: a backslash is
      dropped only when the next character is one of `chars`. This is not
      MarkdownV2's reading, where a backslash before any character with
      code 1 to 126 escapes it (`UnescapeAll`). */
  function Unescape(s: string, chars: seq<char>): string
    decreases |s|
  {
    if s == [] then []
    else if |s| >= 2 && s[0] == '\\' && s[1] in chars then [s[1]] + Unescape(s[2..], chars)
    else [s[0]] + Unescape(s[1..], chars)
  }

  /** Unescaping recovers the original text, backslashes included, whenever
      the backslash itself is not in the escaped set. */
  lemma {:induction false} UnescapeRoundTrip(t: string, chars: seq<char>)
    requires '\\' !in chars
    ensures Unescape(Escaped(t, chars), chars) == t
  {
    if t != [] {
      var rest := Escaped(t[1..], chars);
      UnescapeRoundTrip(t[1..], chars);
      if t[0] in chars {
        assert Escaped(t, chars) == ['\\', t[0]] + rest;
        assert (['\\', t[0]] + rest)[2..] == rest;
      } else {
        assert Escaped(t, chars) == [t[0]] + rest;
        assert ([t[0]] + rest)[1..] == rest;
        if t[0] == '\\' && rest != [] {
          EscapedStartsUnreserved(t[1..], chars);
        }
      }
    }
  }

  /** Dropping the backslash before each reserved character recovers the
      input of `markdownEscape`, backslashes included. */
  lemma {:induction false} MarkdownEscapeRoundTrip(t: string)
    ensures Unescape(MarkdownEscaped(t), MarkdownReserved) == t
  {
    UnescapeRoundTrip(t, MarkdownReserved);
  }

  // ---------------------------------------------------------------------
  // Properties of markdownUrlEscape

  /** A URL without `)` and `\` passes unchanged, and only such a URL does. */
  lemma {:induction false} MarkdownUrlUnchanged(t: string)
    ensures MarkdownUrlEscaped(t) == t <==> forall i :: 0 <= i < |t| ==> t[i] != ')' && t[i] != '\\'
  {
    CountInZero(t, [')']);
    CountInZero(t, ['\\']);
    if forall i :: 0 <= i < |t| ==> t[i] != ')' && t[i] != '\\' {
      UrlUnchangedWithout(t);
    }
  }

  lemma {:induction false} UrlUnchangedWithout(t: string)
    requires forall i :: 0 <= i < |t| ==> t[i] != ')' && t[i] != '\\'
    ensures MarkdownUrlEscaped(t) == t
  {
    if t != [] {
      assert t[0] != ')' && t[0] != '\\';
      UrlUnchangedWithout(t[1..]);
    }
  }

  /** MarkdownV2's reading of backslashes: a backslash before a character
      with code 1 to 126 escapes it; any other backslash is kept. */
  function UnescapeAll(s: string): string
    decreases |s|
  {
    if s == [] then []
    else if |s| >= 2 && s[0] == '\\' && 0 < s[1] as int <= 126 then [s[1]] + UnescapeAll(s[2..])
    else [s[0]] + UnescapeAll(s[1..])
  }

  /** When the backslash is itself escaped, every backslash of the output
      starts a pair, so the standard reading recovers the input. */
  lemma {:induction false} UnescapeAllRoundTrip(t: string, chars: seq<char>)
    requires '\\' in chars
    requires forall k :: 0 <= k < |chars| ==> 0 < chars[k] as int <= 126
    ensures UnescapeAll(Escaped(t, chars)) == t
  {
    if t != [] {
      var rest := Escaped(t[1..], chars);
      UnescapeAllRoundTrip(t[1..], chars);
      if t[0] in chars {
        assert Escaped(t, chars) == ['\\', t[0]] + rest;
        assert (['\\', t[0]] + rest)[2..] == rest;
      } else {
        assert Escaped(t, chars) == [t[0]] + rest;
        assert ([t[0]] + rest)[1..] == rest;
      }
    }
  }

  /** As written, `markdownEscape` leaves a backslash alone, and MarkdownV2
      reads it as escaping the next character: `a\b` is sent unchanged and
      reads back as `ab`. */
  lemma MarkdownEscapeAsWrittenDropsBackslash()
    ensures MarkdownEscaped("a\\b") == "a\\b"
    ensures UnescapeAll(MarkdownEscaped("a\\b")) == "ab"
  {
  }

  /** As written, the URL escaper's output is misread: `a(b)` comes out as
      `a(b\\)`, whose backslashes MarkdownV2 reads as one literal backslash,
      leaving the `)` unescaped. */
  lemma UrlEscapeAsWrittenMisreadsParen()
    ensures MarkdownUrlEscaped("a(b)") == "a(b\\\\)"
    ensures UnescapeAll(MarkdownUrlEscaped("a(b)")) == "a(b\\)"
    ensures UnescapeAll(MarkdownUrlEscaped("a(b)")) != "a(b)"
  {
    UrlEscapeOfParenExample();
    var out := MarkdownUrlEscaped("a(b)");
    assert out[3..] == UrlCharAsWritten(')') + [];
    assert UnescapeAll(out[3..]) == "\\)" by {
      UrlReadBackStep(')', []);
    }
    assert UnescapeAll(out[2..]) == "b\\)" by {
      assert out[2..][1..] == out[3..];
    }
    assert UnescapeAll(out[1..]) == "(b\\)" by {
      assert out[1..][1..] == out[2..];
    }
  }

  /** The as-written URL escape of `a(b)`, one character at a time. */
  lemma UrlEscapeOfParenExample()
    ensures MarkdownUrlEscaped("a(b)") == "a(b\\\\)"
  {
    var t := "a(b)";
    assert t[1..] == "(b)" && t[1..][1..] == "b)" && t[1..][1..][1..] == ")";
    assert MarkdownUrlEscaped(")") == "\\\\)";
    assert MarkdownUrlEscaped("b)") == "b\\\\)";
    assert MarkdownUrlEscaped("(b)") == "(b\\\\)";
  }

  /** What MarkdownV2 reads from one character of the as-written URL
      escaper's output: `)` comes back as a backslash and a `)`. */
  lemma {:induction false} UrlReadBackStep(c: char, rest: string)
    ensures UnescapeAll(UrlCharAsWritten(c) + rest)
      == (if c == ')' then ['\\', ')'] else [c]) + UnescapeAll(rest)
  {
    if c == ')' {
      var s := UrlCharAsWritten(c) + rest;
      assert s[2..] == [')'] + rest;
      assert ([')'] + rest)[1..] == rest;
    } else if c == '\\' {
      assert (UrlCharAsWritten(c) + rest)[2..] == rest;
    } else {
      assert (UrlCharAsWritten(c) + rest)[1..] == rest;
    }
  }

  /** MarkdownV2's reading of the as-written URL escaper's output is one
      character longer than the input per `)`. */
  lemma {:induction false} UrlReadBackLength(t: string)
    ensures |UnescapeAll(MarkdownUrlEscaped(t))| == |t| + CountIn(t, [')'])
  {
    if t != [] {
      UrlReadBackLength(t[1..]);
      UrlReadBackStep(t[0], MarkdownUrlEscaped(t[1..]));
    }
  }

  /** Every URL holding a `)` is misread after the as-written escaper. */
  lemma {:induction false} UrlEscapeAsWrittenMisreadsEveryParen(t: string)
    requires ')' in t
    ensures UnescapeAll(MarkdownUrlEscaped(t)) != t
  {
    UrlReadBackLength(t);
    CountInZero(t, [')']);
  }
}

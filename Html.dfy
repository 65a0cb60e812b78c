/**
 * `escapeHtml(unsafe)`: absent input gives the empty string; otherwise five global
 * replacements, '&' first, then '<', '>', '"' and '''. The copies in app.js,
 * invoices-main.js and dashboard-main.js are the same function.
 */
module Html {
  import opened Wrappers

  /** `s.replace(/c/g, rep)`. */
  function ReplaceAll(s: string, c: char, rep: string): (r: string)
  {
    if s == [] then [] else (if s[0] == c then rep else [s[0]]) + ReplaceAll(s[1..], c, rep)
  }

  /** `escapeHtml`: `None` stands for `null` and `undefined`. */
  function EscapeHtml(unsafe: Option<string>): (r: string)
    ensures unsafe.None? ==> r == ""
    ensures unsafe.Some? && NoSpecial(unsafe.value) ==> r == unsafe.value
  {
    match unsafe
    case None => ""
    case Some(s) =>
      ChainFixed(s);
      ReplaceAll(ReplaceAll(ReplaceAll(ReplaceAll(ReplaceAll(s, '&', "&amp;"), '<', "&lt;"), '>', "&gt;"), '"', "&quot;"), '\'', "&#039;")
  }

  // ---------------------------------------------------------------------------
  // The same thing, one character at a time
  // ---------------------------------------------------------------------------

  predicate IsSpecial(c: char) { c == '&' || c == '<' || c == '>' || c == '"' || c == '\'' }

  /** A text without special characters goes through the five replacements unchanged. */
  lemma ChainFixed(s: string)
    ensures NoSpecial(s) ==>
              ReplaceAll(ReplaceAll(ReplaceAll(ReplaceAll(ReplaceAll(s, '&', "&amp;"), '<', "&lt;"), '>', "&gt;"), '"', "&quot;"), '\'', "&#039;") == s
  {
    if NoSpecial(s) {
      ReplaceAllAbsent(s, '&', "&amp;");
      Tail4Fixed(s);
    }
  }

  /** The entity each special character becomes. */
  function EscapeChar(c: char): (e: string)
    ensures |e| >= 1 && (|e| == 1 <==> !IsSpecial(c))
    ensures forall i :: 0 <= i < |e| ==> !IsSpecial(e[i]) || e[i] == '&'
  {
    match c
    case '&' => "&amp;"
    case '<' => "&lt;"
    case '>' => "&gt;"
    case '"' => "&quot;"
    case '\'' => "&#039;"
    case _ => [c]
  }

  /** `escapeHtml` on a text that is present. */
  function Escape(s: string): string
  {
    EscapeHtml(Some(s))
  }

  function EscapeEach(s: string): string
  {
    if s == [] then [] else EscapeChar(s[0]) + EscapeEach(s[1..])
  }

  lemma {:induction false} ReplaceAllConcat(a: string, b: string, c: char, rep: string)
    ensures ReplaceAll(a + b, c, rep) == ReplaceAll(a, c, rep) + ReplaceAll(b, c, rep)
  {
    if a == [] {
      assert a + b == b;
    } else {
      assert (a + b)[0] == a[0];
      assert (a + b)[1..] == a[1..] + b;
      ReplaceAllConcat(a[1..], b, c, rep);
    }
  }

  lemma {:induction false} ReplaceAllAbsent(s: string, c: char, rep: string)
    requires c !in s
    ensures ReplaceAll(s, c, rep) == s
  {
    if s != [] {
      ReplaceAllAbsent(s[1..], c, rep);
    }
  }

  /** The last four passes leave every replacement already made intact. */
  function Tail4(s: string): string
  {
    ReplaceAll(ReplaceAll(ReplaceAll(ReplaceAll(s, '<', "&lt;"), '>', "&gt;"), '"', "&quot;"), '\'', "&#039;")
  }

  lemma Tail4Concat(a: string, b: string)
    ensures Tail4(a + b) == Tail4(a) + Tail4(b)
  {
    ReplaceAllConcat(a, b, '<', "&lt;");
    var a1, b1 := ReplaceAll(a, '<', "&lt;"), ReplaceAll(b, '<', "&lt;");
    ReplaceAllConcat(a1, b1, '>', "&gt;");
    var a2, b2 := ReplaceAll(a1, '>', "&gt;"), ReplaceAll(b1, '>', "&gt;");
    ReplaceAllConcat(a2, b2, '"', "&quot;");
    var a3, b3 := ReplaceAll(a2, '"', "&quot;"), ReplaceAll(b2, '"', "&quot;");
    ReplaceAllConcat(a3, b3, '\'', "&#039;");
  }

  lemma ReplaceSingle(c: char, d: char, rep: string)
    ensures ReplaceAll([c], d, rep) == if c == d then rep else [c]
  {
    assert [c][1..] == [];
  }

  /** Text with none of the last four characters passes through the last four replacements. */
  lemma Tail4Fixed(e: string)
    requires '<' !in e && '>' !in e && '"' !in e && '\'' !in e
    ensures Tail4(e) == e
  {
    ReplaceAllAbsent(e, '<', "&lt;");
    ReplaceAllAbsent(e, '>', "&gt;");
    ReplaceAllAbsent(e, '"', "&quot;");
    ReplaceAllAbsent(e, '\'', "&#039;");
  }

  /** The last three passes leave a text without '>', '"' and ''' as it is. */
  lemma Tail3Fixed(s: string)
    requires '>' !in s && '"' !in s && '\'' !in s
    ensures ReplaceAll(ReplaceAll(ReplaceAll(s, '>', "&gt;"), '"', "&quot;"), '\'', "&#039;") == s
  {
    ReplaceAllAbsent(s, '>', "&gt;");
    ReplaceAllAbsent(s, '"', "&quot;");
    ReplaceAllAbsent(s, '\'', "&#039;");
  }

  lemma Tail4Lt()
    ensures Tail4("<") == "&lt;"
  {
    var e := "&lt;";
    ReplaceSingle('<', '<', e);
    assert '>' !in e && '"' !in e && '\'' !in e;
    Tail3Fixed(e);
  }

  lemma Tail4Gt()
    ensures Tail4(">") == "&gt;"
  {
    var c, e := '>', "&gt;";
    ReplaceSingle(c, '<', "&lt;");
    ReplaceSingle(c, '>', e);
    assert '"' !in e && '\'' !in e;
    ReplaceAllAbsent(e, '"', "&quot;");
    ReplaceAllAbsent(e, '\'', "&#039;");
  }

  lemma Tail4Quot()
    ensures Tail4("\"") == "&quot;"
  {
    var c, e := '"', "&quot;";
    ReplaceSingle(c, '<', "&lt;");
    ReplaceSingle(c, '>', "&gt;");
    ReplaceSingle(c, '"', e);
    assert '\'' !in e;
    ReplaceAllAbsent(e, '\'', "&#039;");
  }

  lemma Tail4Apos()
    ensures Tail4("'") == "&#039;"
  {
    var c := '\'';
    ReplaceSingle(c, '<', "&lt;");
    ReplaceSingle(c, '>', "&gt;");
    ReplaceSingle(c, '"', "&quot;");
    ReplaceSingle(c, '\'', "&#039;");
  }

  /** The replacement chain on a single character gives that character's entity. */
  lemma Tail4Char(c: char)
    ensures Tail4(ReplaceAll([c], '&', "&amp;")) == EscapeChar(c)
  {
    ReplaceSingle(c, '&', "&amp;");
    if c == '&' {
      Tail4Fixed("&amp;");
    } else if c == '<' {
      Tail4Lt();
    } else if c == '>' {
      Tail4Gt();
    } else if c == '"' {
      Tail4Quot();
    } else if c == '\'' {
      Tail4Apos();
    } else {
      Tail4Fixed([c]);
    }
  }

  /** Because '&' goes first, the chain of replacements is a per-character entity map. */
  lemma {:induction false} EscapeIsPerCharacter(s: string)
    ensures EscapeHtml(Some(s)) == EscapeEach(s)
  {
    if s != [] {
      EscapeIsPerCharacter(s[1..]);
      assert s == [s[0]] + s[1..];
      ReplaceAllConcat([s[0]], s[1..], '&', "&amp;");
      Tail4Concat(ReplaceAll([s[0]], '&', "&amp;"), ReplaceAll(s[1..], '&', "&amp;"));
      Tail4Char(s[0]);
    }
  }

  // ---------------------------------------------------------------------------
  // What the escaped text is like
  // ---------------------------------------------------------------------------

  /** No '<', '>', '"' or ''' survives: the only special character left is the '&' of an entity. */
  predicate MarkupFree(e: string)
  {
    forall i :: 0 <= i < |e| ==> e[i] != '<' && e[i] != '>' && e[i] != '"' && e[i] != '\''
  }

  lemma {:induction false} EscapedHasNoMarkup(s: string)
    ensures MarkupFree(EscapeHtml(Some(s)))
  {
    EscapeIsPerCharacter(s);
    EachHasNoMarkup(s);
  }

  lemma {:induction false} EachHasNoMarkup(s: string)
    ensures forall i :: 0 <= i < |EscapeEach(s)| ==> !IsSpecial(EscapeEach(s)[i]) || EscapeEach(s)[i] == '&'
  {
    if s != [] {
      EachHasNoMarkup(s[1..]);
      var h, t := EscapeChar(s[0]), EscapeEach(s[1..]);
      assert EscapeEach(s) == h + t;
      forall i | 0 <= i < |h + t|
        ensures !IsSpecial((h + t)[i]) || (h + t)[i] == '&'
      {
        if i < |h| {
          assert (h + t)[i] == h[i];
          assert !IsSpecial(h[i]) || h[i] == '&';
        } else {
          assert (h + t)[i] == t[i - |h|];
          assert !IsSpecial(t[i - |h|]) || t[i - |h|] == '&';
        }
      }
    }
  }

  predicate NoSpecial(s: string) { forall i :: 0 <= i < |s| ==> !IsSpecial(s[i]) }

  /** Text without special characters comes back unchanged; any special character makes it longer. */
  lemma {:induction false} EscapeLength(s: string)
    ensures NoSpecial(s) ==> EscapeEach(s) == s
    ensures !NoSpecial(s) ==> |EscapeEach(s)| > |s|
    ensures |EscapeEach(s)| >= |s|
  {
    if s != [] {
      EscapeLength(s[1..]);
      if NoSpecial(s) {
        assert NoSpecial(s[1..]);
        assert s == [s[0]] + s[1..];
      } else if !IsSpecial(s[0]) {
        assert !NoSpecial(s[1..]) by {
          var i :| 0 <= i < |s| && IsSpecial(s[i]);
          assert s[1..][i - 1] == s[i];
        }
      }
    }
  }

  /** `escapeHtml` is unchanged exactly on text without special characters, and otherwise longer. */
  lemma EscapeUnchangedIff(s: string)
    ensures EscapeHtml(Some(s)) == s <==> NoSpecial(s)
    ensures !NoSpecial(s) ==> |EscapeHtml(Some(s))| > |s|
  {
    EscapeIsPerCharacter(s);
    EscapeLength(s);
  }

  /** Any special character leaves an entity, and so an '&', in the escaped text. */
  lemma {:induction false} EscapedHasAmpersand(s: string)
    requires !NoSpecial(s)
    ensures '&' in EscapeEach(s)
  {
    var h, t := EscapeChar(s[0]), EscapeEach(s[1..]);
    assert EscapeEach(s) == h + t;
    if IsSpecial(s[0]) {
      assert h[0] == '&';
      assert (h + t)[0] == '&';
    } else {
      assert !NoSpecial(s[1..]) by {
        var i :| 0 <= i < |s| && IsSpecial(s[i]);
        assert s[1..][i - 1] == s[i];
      }
      EscapedHasAmpersand(s[1..]);
      var j :| 0 <= j < |t| && t[j] == '&';
      assert (h + t)[|h| + j] == '&';
    }
  }

  /**
   * Escaping is not idempotent: escaping escaped text changes it again whenever the original had
   * a special character ("&amp;" becomes "&amp;amp;"), and only plain text is a fixed point.
   */
  lemma NotIdempotent(s: string)
    ensures var e := EscapeHtml(Some(s));
            EscapeHtml(Some(e)) == e <==> NoSpecial(s)
  {
    var e := EscapeHtml(Some(s));
    EscapeUnchangedIff(s);
    EscapeUnchangedIff(e);
    EscapeIsPerCharacter(s);
    if !NoSpecial(s) {
      EscapedHasAmpersand(s);
      var j :| 0 <= j < |e| && e[j] == '&';
      assert !NoSpecial(e);
    }
  }

  // ---------------------------------------------------------------------------
  // Reading entities back
  // ---------------------------------------------------------------------------

  predicate StartsWith(s: string, p: string) { |p| <= |s| && s[..|p|] == p }

  /** What a browser shows for escaped text: the five entities become their characters again. */
  function Unescape(s: string): string
    decreases |s|
  {
    if s == [] then []
    else if StartsWith(s, "&amp;") then "&" + Unescape(s[5..])
    else if StartsWith(s, "&lt;") then "<" + Unescape(s[4..])
    else if StartsWith(s, "&gt;") then ">" + Unescape(s[4..])
    else if StartsWith(s, "&quot;") then "\"" + Unescape(s[6..])
    else if StartsWith(s, "&#039;") then "'" + Unescape(s[6..])
    else [s[0]] + Unescape(s[1..])
  }

  lemma UnescapeStep(c: char, rest: string)
    ensures Unescape(EscapeChar(c) + rest) == [c] + Unescape(rest)
  {
    var ent := EscapeChar(c);
    var e := ent + rest;
    assert e[..|ent|] == ent && e[|ent|..] == rest;
    if !IsSpecial(c) {
      assert e[0] == c && e[1..] == rest;
      assert !StartsWith(e, "&amp;") && !StartsWith(e, "&lt;") && !StartsWith(e, "&gt;");
      assert !StartsWith(e, "&quot;") && !StartsWith(e, "&#039;");
    } else if c == '&' {
      assert StartsWith(e, "&amp;");
    } else if c == '<' {
      assert e[1] == 'l';
      assert !StartsWith(e, "&amp;") && StartsWith(e, "&lt;");
    } else if c == '>' {
      assert e[1] == 'g';
      assert !StartsWith(e, "&amp;") && !StartsWith(e, "&lt;") && StartsWith(e, "&gt;");
    } else if c == '"' {
      assert e[1] == 'q';
      assert !StartsWith(e, "&amp;") && !StartsWith(e, "&lt;") && !StartsWith(e, "&gt;");
      assert StartsWith(e, "&quot;");
    } else {
      assert e[1] == '#';
      assert !StartsWith(e, "&amp;") && !StartsWith(e, "&lt;") && !StartsWith(e, "&gt;");
      assert !StartsWith(e, "&quot;") && StartsWith(e, "&#039;");
    }
  }

  /** Escaped text displays as the original text. */
  lemma {:induction false} UnescapeEscape(s: string)
    ensures Unescape(EscapeHtml(Some(s))) == s
  {
    EscapeIsPerCharacter(s);
    UnescapeEach(s);
  }

  lemma {:induction false} UnescapeEach(s: string)
    ensures Unescape(EscapeEach(s)) == s
  {
    if s != [] {
      UnescapeEach(s[1..]);
      UnescapeStep(s[0], EscapeEach(s[1..]));
      assert s == [s[0]] + s[1..];
    }
  }

  /** Escaping leaves the empty text empty and nothing else empty, so `x ? escape(x) : ''` tests the same thing before and after. */
  lemma EscapeEmpty(s: string)
    ensures Escape(s) == "" <==> s == ""
  {
    EscapeIsPerCharacter(s);
    EscapeLength(s);
  }
}

/** `cleanUpHandlebarsErrorMessage`: two single-pass regular-expression replacements,
    `replaceAll("inline@[a-z0-9]+:", "")` followed by `replaceAll("\n.*", "")`, written out
    as the left-to-right scans that Java's `Matcher.replaceAll` performs. */
module ErrorMessages {

  /** The characters Java's `.` does not match (no DOTALL, no UNIX_LINES flag). */
  predicate IsLineTerminator(c: char) {
    c == '\n' || c == '\r' || c == '\U{0085}' || c == '\U{2028}' || c == '\U{2029}'
  }

  /** The class `[a-z0-9]`. */
  predicate IsIdChar(c: char) {
    ('a' <= c <= 'z') || ('0' <= c <= '9')
  }

  const TokenPrefix := "inline@"

  /** Length of the longest prefix of `s` made of characters satisfying `IsIdChar`. */
  function IdRun(s: string): (n: nat)
    ensures n <= |s|
    ensures forall i :: 0 <= i < n ==> IsIdChar(s[i])
    ensures n < |s| ==> !IsIdChar(s[n])
  {
    if s != [] && IsIdChar(s[0]) then 1 + IdRun(s[1..]) else 0
  }

  /** Length of the match of `inline@[a-z0-9]+:` at the start of `s`, or 0 when there is
      none. Greedy matching needs no backtracking here: `:` is not in `[a-z0-9]`, so the
      only candidate end is right after the longest run of id characters. */
  function TokenAt(s: string): (m: nat)
    ensures m <= |s|
  {
    if |s| >= |TokenPrefix| && s[..|TokenPrefix|] == TokenPrefix then
      var n := IdRun(s[|TokenPrefix|..]);
      if n >= 1 && |TokenPrefix| + n < |s| && s[|TokenPrefix| + n] == ':' then |TokenPrefix| + n + 1 else 0
    else 0
  }

  /** First pass: every non-overlapping match, leftmost first, is removed. */
  function StripTokens(s: string): (r: string)
    ensures |r| <= |s|
    decreases |s|
  {
    if s == [] then []
    else
      var m := TokenAt(s);
      if m > 0 then StripTokens(s[m..]) else [s[0]] + StripTokens(s[1..])
  }

  /** Length of the run of characters from the start of `s` that `.` matches. */
  function LineRest(s: string): (n: nat)
    ensures n <= |s|
    ensures forall i :: 0 <= i < n ==> !IsLineTerminator(s[i])
    ensures n < |s| ==> IsLineTerminator(s[n])
  {
    if s != [] && !IsLineTerminator(s[0]) then 1 + LineRest(s[1..]) else 0
  }

  /** Second pass: every `\n`, with the characters after it up to the next line
      terminator, is removed; the scan then goes on from that terminator. */
  function StripLineTails(s: string): (r: string)
    ensures '\n' !in r
    ensures |r| <= |s|
    decreases |s|
  {
    if s == [] then []
    else if s[0] == '\n' then StripLineTails(s[1 + LineRest(s[1..])..])
    else [s[0]] + StripLineTails(s[1..])
  }

  function CleanUpHandlebarsErrorMessage(rawMessage: string): (r: string)
    ensures '\n' !in r
    ensures |r| <= |rawMessage|
  {
    StripLineTails(StripTokens(rawMessage))
  }

  /** No match of the token pattern starts anywhere in `s`. */
  predicate TokenFree(s: string) {
    forall i :: 0 <= i < |s| ==> TokenAt(s[i..]) == 0
  }

  /** What a match of `inline@[a-z0-9]+:` at the start of `s` covers: the prefix, an
      identifier and the colon. */
  lemma TokenAtShape(s: string)
    requires TokenAt(s) > 0
    ensures var m := TokenAt(s);
            m >= |TokenPrefix| + 2 && s[..m] == TokenPrefix + s[|TokenPrefix|..m - 1] + ":"
            && IsId(s[|TokenPrefix|..m - 1])
  {
    var m := TokenAt(s);
    var id := s[|TokenPrefix|..m - 1];
    assert s[..m] == s[..|TokenPrefix|] + id + [s[m - 1]];
  }

  /** The first pass only removes characters. */
  lemma {:induction false} StripTokensChars(s: string)
    ensures forall c :: c in StripTokens(s) ==> c in s
    decreases |s|
  {
    if s != [] {
      var m := TokenAt(s);
      if m > 0 {
        StripTokensChars(s[m..]);
      } else {
        StripTokensChars(s[1..]);
      }
    }
  }

  /** Position of the first `\n` in `s`, or `|s|` when there is none. */
  function FirstNewline(s: string): (k: nat)
    ensures k <= |s|
    ensures forall i :: 0 <= i < k ==> s[i] != '\n'
    ensures k < |s| ==> s[k] == '\n'
  {
    if s == [] || s[0] == '\n' then 0 else 1 + FirstNewline(s[1..])
  }

  /** Text without a token is left alone by the first pass. */
  lemma {:induction false} StripTokensOfTokenFree(s: string)
    requires TokenFree(s)
    ensures StripTokens(s) == s
    decreases |s|
  {
    if s != [] {
      assert s[0..] == s;
      assert TokenAt(s) == 0;
      assert TokenFree(s[1..]) by {
        forall i | 0 <= i < |s[1..]| ensures TokenAt(s[1..][i..]) == 0 {
          assert s[1..][i..] == s[i + 1..];
        }
      }
      StripTokensOfTokenFree(s[1..]);
    }
  }

  /** One token followed by any text: the token disappears and the scan goes on after it. */
  lemma StripLeadingToken(id: string, rest: string)
    requires |id| > 0 && forall i :: 0 <= i < |id| ==> IsIdChar(id[i])
    ensures StripTokens(TokenPrefix + id + ":" + rest) == StripTokens(rest)
  {
    var s := TokenPrefix + id + ":" + rest;
    assert s[..|TokenPrefix|] == TokenPrefix;
    var tail := s[|TokenPrefix|..];
    assert tail == id + ":" + rest;
    IdRunOfId(id, ":" + rest);
    assert s[|TokenPrefix| + |id|] == ':';
    assert TokenAt(s) == |TokenPrefix| + |id| + 1;
    assert s[|TokenPrefix| + |id| + 1..] == rest;
  }

  lemma {:induction false} IdRunOfId(id: string, rest: string)
    requires forall i :: 0 <= i < |id| ==> IsIdChar(id[i])
    requires rest != [] && !IsIdChar(rest[0])
    ensures IdRun(id + rest) == |id|
    decreases |id|
  {
    if id == [] {
      assert id + rest == rest;
    } else {
      assert (id + rest)[1..] == id[1..] + rest;
      IdRunOfId(id[1..], rest);
    }
  }

  /** With `\n` as the only line terminator, the second pass keeps exactly the text
      before the first `\n`. */
  lemma {:induction false} StripLineTailsSingleLine(s: string)
    requires forall i :: 0 <= i < |s| ==> s[i] == '\n' || !IsLineTerminator(s[i])
    ensures StripLineTails(s) == s[..FirstNewline(s)]
    decreases |s|
  {
    if s == [] {
    } else if s[0] == '\n' {
      StripLineTailsFromNewline(s);
    } else {
      StripLineTailsSingleLine(s[1..]);
      assert s[..FirstNewline(s)] == [s[0]] + s[1..][..FirstNewline(s[1..])];
    }
  }

  /** From a `\n` on, with no other line terminator, everything is removed. */
  lemma {:induction false} StripLineTailsFromNewline(s: string)
    requires s != [] && s[0] == '\n'
    requires forall i :: 0 <= i < |s| ==> s[i] == '\n' || !IsLineTerminator(s[i])
    ensures StripLineTails(s) == []
    decreases |s|
  {
    var next := s[1 + LineRest(s[1..])..];
    if next != [] {
      assert next[0] == s[1 + LineRest(s[1..])];
      assert forall i :: 0 <= i < |next| ==> next[i] == s[1 + LineRest(s[1..]) + i];
      StripLineTailsFromNewline(next);
    }
  }

  /** The result of the whole clean-up, for a message whose only line terminator is `\n`:
      the token-stripped message up to its first `\n`. */
  lemma CleanUpSingleLineTerminator(rawMessage: string)
    requires forall i :: 0 <= i < |rawMessage| ==> rawMessage[i] == '\n' || !IsLineTerminator(rawMessage[i])
    ensures var t := StripTokens(rawMessage);
            CleanUpHandlebarsErrorMessage(rawMessage) == t[..FirstNewline(t)]
  {
    var t := StripTokens(rawMessage);
    StripTokensChars(rawMessage);
    forall i | 0 <= i < |t| ensures t[i] == '\n' || !IsLineTerminator(t[i]) {
      assert t[i] in t;
      var j :| 0 <= j < |rawMessage| && rawMessage[j] == t[i];
    }
    StripLineTailsSingleLine(t);
  }

  /** No token starts where a character of the prefix `inline@` is missing. */
  lemma NoTokenWhereMismatch(s: string, k: nat)
    requires k < |TokenPrefix| && (k >= |s| || s[k] != TokenPrefix[k])
    ensures TokenAt(s) == 0
  {
    if |s| >= |TokenPrefix| {
      assert s[..|TokenPrefix|][k] == s[k];
    }
  }

  /** The second pass leaves a text without line terminators alone. */
  lemma {:induction false} StripLineTailsOfOneLine(s: string)
    requires forall i :: 0 <= i < |s| ==> !IsLineTerminator(s[i])
    ensures StripLineTails(s) == s
    decreases |s|
  {
    if s != [] {
      StripLineTailsOfOneLine(s[1..]);
    }
  }

  /** A non-empty run of `[a-z0-9]`, the identifier part of a synthetic template name. */
  predicate IsId(id: string) {
    |id| > 0 && forall i :: 0 <= i < |id| ==> IsIdChar(id[i])
  }

  /** Where a character of `inline@` is missing, the first pass keeps the first
      character and goes on with the next. */
  lemma StripKeepsFirst(s: string, k: nat)
    requires s != [] && k < |TokenPrefix| && (k >= |s| || s[k] != TokenPrefix[k])
    ensures StripTokens(s) == [s[0]] + StripTokens(s[1..])
  {
    NoTokenWhereMismatch(s, k);
  }

  /** A character followed by text that does not go on as `inline@` does after its first
      character: no match starts at that character, so it is kept. */
  lemma StripKeepsHead(c: char, tail: string)
    requires tail != [] && tail[0] != TokenPrefix[1]
    ensures StripTokens([c] + tail) == [c] + StripTokens(tail)
  {
    var raw := [c] + tail;
    assert raw[1..] == tail;
    StripKeepsFirst(raw, 1);
  }

  /** `nline@` + id + `:` holds no token. */
  lemma TailIsTokenFree(y: string)
    requires IsId(y)
    ensures TokenFree(TokenPrefix[1..] + y + ":")
  {
    var joined := TokenPrefix[1..] + y + ":";
    forall i | 0 <= i < |joined| ensures TokenAt(joined[i..]) == 0 {
      if i == 2 {
        NoTokenWhereMismatch(joined[i..], 2);
      } else if i < 6 {
        NoTokenWhereMismatch(joined[i..], 0);
      } else {
        if i + 6 < |joined| {
          assert joined[i..][6] == (y + ":")[i];
        }
        NoTokenWhereMismatch(joined[i..], 6);
      }
    }
  }

  /** The first pass over `i` + `inline@x:` + `nline@y:` removes the middle token and so
      joins the outer parts into the new token `inline@y:`. */
  lemma FirstPassJoinsToken(x: string, y: string)
    requires IsId(x) && IsId(y)
    ensures StripTokens(TokenPrefix[..1] + (TokenPrefix + x + ":") + TokenPrefix[1..] + y + ":") == TokenPrefix + y + ":"
  {
    var joined := TokenPrefix[1..] + y + ":";
    var tail := TokenPrefix + x + ":" + joined;
    assert TokenPrefix == [TokenPrefix[0]] + TokenPrefix[1..];
    Regroup(TokenPrefix[0], TokenPrefix, TokenPrefix[1..], x, y, ":");
    assert tail[0] == TokenPrefix[0] != TokenPrefix[1];
    StripKeepsHead(TokenPrefix[0], tail);
    StripLeadingToken(x, joined);
    TailIsTokenFree(y);
    StripTokensOfTokenFree(joined);
  }

  /** The regrouping `FirstPassJoinsToken` needs, over any sequences. */
  lemma Regroup<T>(c: T, p: seq<T>, rest: seq<T>, x: seq<T>, y: seq<T>, colon: seq<T>)
    requires p == [c] + rest
    ensures p[..1] == [c] && p[1..] == rest
    ensures p[..1] + (p + x + colon) + p[1..] + y + colon == [c] + (p + x + colon + (rest + y + colon))
    ensures [c] + (rest + y + colon) == p + y + colon
  {
    assert p[..1] == [c];
    assert p[1..] == rest;
  }

  /** A token holds no line terminator. */
  lemma TokenIsOneLine(y: string)
    requires IsId(y)
    ensures forall i :: 0 <= i < |TokenPrefix + y + ":"| ==> !IsLineTerminator((TokenPrefix + y + ":")[i])
  {
    var t := TokenPrefix + y + ":";
    forall i | 0 <= i < |t| ensures !IsLineTerminator(t[i]) {
      if i >= |TokenPrefix| && i < |t| - 1 {
        assert t[i] == y[i - |TokenPrefix|];
      }
    }
  }

  /** The clean-up is not idempotent: removing one token can join the text around it into
      a new token, which the single pass leaves in place and a second clean-up removes. */
  lemma CleanUpIsNotIdempotent(x: string, y: string)
    requires IsId(x) && IsId(y)
    ensures var once := CleanUpHandlebarsErrorMessage(TokenPrefix[..1] + (TokenPrefix + x + ":") + TokenPrefix[1..] + y + ":");
            once == TokenPrefix + y + ":" && CleanUpHandlebarsErrorMessage(once) == []
  {
    FirstPassJoinsToken(x, y);
    var once := TokenPrefix + y + ":";
    TokenIsOneLine(y);
    StripLineTailsOfOneLine(once);
    assert once == TokenPrefix + y + ":" + [];
    StripLeadingToken(y, []);
  }

  /** A typical Handlebars message, `inline@<id>:` + message + `\n` + detail: the
      synthetic template name and the detail lines go, the message stays. */
  lemma CleanUpKeepsMessageLine(id: string, message: string, detail: string)
    requires IsId(id)
    requires TokenFree(message + "\n" + detail)
    requires forall i :: 0 <= i < |message| ==> !IsLineTerminator(message[i])
    requires forall i :: 0 <= i < |detail| ==> detail[i] == '\n' || !IsLineTerminator(detail[i])
    ensures CleanUpHandlebarsErrorMessage(TokenPrefix + id + ":" + message + "\n" + detail) == message
  {
    var rest := message + "\n" + detail;
    assert TokenPrefix + id + ":" + message + "\n" + detail == TokenPrefix + id + ":" + rest;
    StripLeadingToken(id, rest);
    StripTokensOfTokenFree(rest);
    forall i | 0 <= i < |rest| ensures rest[i] == '\n' || !IsLineTerminator(rest[i]) {
      if i < |message| {
        assert rest[i] == message[i];
      } else if i > |message| {
        assert rest[i] == detail[i - |message| - 1];
      }
    }
    StripLineTailsSingleLine(rest);
    FirstNewlineAfter(message, detail);
    assert rest[..|message|] == message;
  }

  lemma {:induction false} FirstNewlineAfter(line: string, rest: string)
    requires forall i :: 0 <= i < |line| ==> line[i] != '\n'
    ensures FirstNewline(line + "\n" + rest) == |line|
    decreases |line|
  {
    if line != [] {
      assert (line + "\n" + rest)[1..] == line[1..] + "\n" + rest;
      FirstNewlineAfter(line[1..], rest);
    }
  }
}

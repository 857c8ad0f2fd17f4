/**
 * The request filter in front of every path: HTTP Basic authentication
 * (section 2 of RFC 7617) against one fixed user and password, decided from
 * the `authorization` header alone.
 *
 * Base64 decoding (Node's lenient `Buffer.from(_, 'base64').toString()`) is
 * not visible here; it is the parameter `decode`.
 */
module BasicGate {
  import opened Wrappers
  import opened BraceSpan

  const USER: string := "YOKO"
  const PASS: string := "TOMOSAN"
  const REALM_CHALLENGE: string := "Basic realm=\"protected\""

  /**
   * The gate's decision. `Throws` is the uncaught `TypeError` that
   * `Buffer.from(undefined, ...)` raises when no second token exists.
   */
  datatype Decision = Challenge401 | Unauthorized401 | Pass | Throws

  /** What the framework sends: the next handler, or a reply produced by the gate. */
  datatype GateResponse = Next | Reply(status: nat, body: string, wwwAuthenticate: Option<string>) | UncaughtError

  /** JavaScript's `s.split(sep)` for a one-character separator: every field, empty ones included. */
  function Split(s: string, sep: char): (fields: seq<string>)
    ensures |fields| >= 1
    ensures |fields| == 1 <==> sep !in s
    ensures forall k :: 0 <= k < |fields| ==> sep !in fields[k]
    decreases |s|
  {
    if |s| == 0 then [""]
    else
      var rest := Split(s[1..], sep);
      if s[0] == sep then [""] + rest
      else [[s[0]] + rest[0]] + rest[1..]
  }

  /** JavaScript's `fields.join(sep)`, the inverse of `Split`. */
  function Join(fields: seq<string>, sep: char): string
    requires |fields| >= 1
  {
    if |fields| == 1 then fields[0] else fields[0] + [sep] + Join(fields[1..], sep)
  }

  /** Splitting loses nothing: joining the fields again gives the string back. */
  lemma {:induction false} JoinSplit(s: string, sep: char)
    ensures Join(Split(s, sep), sep) == s
    decreases |s|
  {
    if |s| > 0 {
      JoinSplit(s[1..], sep);
      var rest := Split(s[1..], sep);
      if s[0] == sep {
        assert s == [s[0]] + s[1..];
      } else {
        if |rest| == 1 {
          assert Join(Split(s, sep), sep) == [s[0]] + rest[0];
        } else {
          assert Split(s, sep)[1..] == rest[1..];
          assert Join(Split(s, sep), sep) == ([s[0]] + rest[0]) + [sep] + Join(rest[1..], sep);
        }
        assert s == [s[0]] + s[1..];
      }
    }
  }

  /** A string without the separator is its own only field. */
  lemma {:induction false} SplitWithoutSeparator(s: string, sep: char)
    requires sep !in s
    ensures Split(s, sep) == [s]
  {
    var f := Split(s, sep);
    JoinSplit(s, sep);
  }

  /** The first field ends at the first separator; the rest is the split of what follows it. */
  lemma {:induction false} SplitAtFirst(a: string, b: string, sep: char)
    requires sep !in a
    ensures Split(a + [sep] + b, sep) == [a] + Split(b, sep)
    decreases |a|
  {
    if |a| == 0 {
      assert a + [sep] + b == [sep] + b;
      assert ([sep] + b)[1..] == b;
    } else {
      SplitAtFirst(a[1..], b, sep);
      assert (a + [sep] + b)[1..] == a[1..] + [sep] + b;
      assert [a[0]] + a[1..] == a;
    }
  }

  /** JavaScript array destructuring: a position past the end reads as `undefined`. */
  function Field(fields: seq<string>, k: nat): Option<string>
  {
    if k < |fields| then Some(fields[k]) else None
  }

  /** `const [user, pass] = decoded.split(':')` compared with the fixed user and password. */
  predicate CredentialsMatch(decoded: string)
  {
    var f := Split(decoded, ':');
    Field(f, 0) == Some(USER) && Field(f, 1) == Some(PASS)
  }

  /**
   * The credentials match exactly when the decoded text is `YOKO:TOMOSAN`,
   * alone or followed by a colon and anything at all.
   */
  lemma CredentialsMatchIff(decoded: string)
    ensures CredentialsMatch(decoded) <==>
      decoded == USER + ":" + PASS || USER + ":" + PASS + ":" <= decoded
  {
    var f := Split(decoded, ':');
    JoinSplit(decoded, ':');
    if decoded == USER + ":" + PASS {
      SplitAtFirst(USER, PASS, ':');
      SplitWithoutSeparator(PASS, ':');
    } else if USER + ":" + PASS + ":" <= decoded {
      var rest := decoded[|USER + ":" + PASS + ":"|..];
      assert decoded == USER + [':'] + (PASS + [':'] + rest);
      SplitAtFirst(USER, PASS + [':'] + rest, ':');
      SplitAtFirst(PASS, rest, ':');
    }
  }

  /**
   * The decision of `middleware` for one request. `header` is the value
   * `req.headers.get('authorization')` returns, which the HTTP layer has
   * already stripped of leading and trailing white space; `None` is `null`.
   */
  function Decide(header: Option<string>, decode: string -> string): (d: Decision)
    ensures d == Challenge401 <==> header.None? || header.value == ""
    ensures d == Unauthorized401 ==>
      header.Some? && |Split(header.value, ' ')| >= 2 && !CredentialsMatch(decode(Split(header.value, ' ')[1]))
  {
    if header.None? || header.value == "" then Challenge401
    else
      var tokens := Split(header.value, ' ');
      if tokens[0] != "Basic" then Pass
      else if |tokens| < 2 then Throws
      else if CredentialsMatch(decode(tokens[1])) then Pass
      else Unauthorized401
  }

  /** The response each decision produces; only the missing-header reply carries a challenge. */
  function Respond(d: Decision): (r: GateResponse)
    ensures r.Reply? <==> d == Challenge401 || d == Unauthorized401
    ensures r.Reply? ==> r.status == 401
    ensures r.Reply? ==> (r.wwwAuthenticate.Some? <==> d == Challenge401)
    ensures r == Next <==> d == Pass
    ensures d == Challenge401 ==> r == Reply(401, "Auth Required", Some(REALM_CHALLENGE))
    ensures d == Unauthorized401 ==> r == Reply(401, "Unauthorized", None)
    ensures d == Throws ==> r == UncaughtError
  {
    match d
    case Challenge401 => Reply(401, "Auth Required", Some(REALM_CHALLENGE))
    case Unauthorized401 => Reply(401, "Unauthorized", None)
    case Pass => Next
    case Throws => UncaughtError
  }

  /** The only header that makes the gate throw is exactly `Basic`, with no space. */
  lemma ThrowsExactlyOnBareBasic(header: Option<string>, decode: string -> string)
    ensures Decide(header, decode) == Throws <==> header == Some("Basic")
  {
    if header.Some? && header.value != "" {
      if ' ' !in header.value {
        SplitWithoutSeparator(header.value, ' ');
      }
    }
  }

  /**
   * Any first token other than exactly `Basic` (`basic`, `Bearer`, an empty
   * token) lets the request through without looking at any credentials.
   */
  lemma OtherSchemePasses(scheme: string, rest: string, decode: string -> string)
    requires ' ' !in scheme && scheme != "Basic"
    ensures Decide(Some(scheme + " " + rest), decode) == Pass
  {
    SplitAtFirst(scheme, rest, ' ');
  }

  /** The tokens of `Basic <encoded> <more>`: the scheme, the credentials, then whatever follows. */
  lemma BasicTokens(encoded: string, more: Option<string>)
    requires ' ' !in encoded
    ensures var h := if more.Some? then "Basic " + encoded + " " + more.value else "Basic " + encoded;
      |Split(h, ' ')| >= 2 && Split(h, ' ')[0] == "Basic" && Split(h, ' ')[1] == encoded
  {
    if more.Some? {
      var tail := encoded + [' '] + more.value;
      assert "Basic " + encoded + " " + more.value == "Basic" + [' '] + tail;
      SplitAtFirst("Basic", tail, ' ');
      SplitAtFirst(encoded, more.value, ' ');
    } else {
      assert "Basic " + encoded == "Basic" + [' '] + encoded;
      SplitAtFirst("Basic", encoded, ' ');
      SplitWithoutSeparator(encoded, ' ');
    }
  }

  /** With the `Basic` scheme, the request passes exactly when the decoded credentials match. */
  lemma BasicPassesIffCredentialsMatch(encoded: string, decode: string -> string)
    requires ' ' !in encoded
    ensures Decide(Some("Basic " + encoded), decode) == Pass <==> CredentialsMatch(decode(encoded))
    ensures Decide(Some("Basic " + encoded), decode) != Pass ==>
      Decide(Some("Basic " + encoded), decode) == Unauthorized401
  {
    BasicTokens(encoded, None);
  }

  /** Tokens after the second space do not change the decision. */
  lemma ExtraTokensIgnored(encoded: string, more: string, decode: string -> string)
    requires ' ' !in encoded
    ensures Decide(Some("Basic " + encoded + " " + more), decode) == Decide(Some("Basic " + encoded), decode)
  {
    BasicTokens(encoded, None);
    BasicTokens(encoded, Some(more));
  }

  /** The password per section 2 of RFC 7617: everything after the first colon. */
  function Rfc7617Password(decoded: string): (p: Option<string>)
    ensures p.Some? <==> ':' in decoded
    ensures p.Some? ==> decoded == decoded[..FirstIndex(decoded, ':')] + ":" + p.value
  {
    var i := FirstIndex(decoded, ':');
    if i < |decoded| then Some(decoded[i + 1..]) else None
  }

  /**
   * The password is cut at a second colon: `YOKO:TOMOSAN:x` is accepted,
   * although RFC 7617 reads its password as `TOMOSAN:x`.
   */
  lemma PasswordTruncatedAtSecondColon(decode: string -> string, encoded: string)
    requires ' ' !in encoded && decode(encoded) == "YOKO:TOMOSAN:x"
    ensures Decide(Some("Basic " + encoded), decode) == Pass
    ensures Rfc7617Password(decode(encoded)) == Some("TOMOSAN:x")
  {
    var decoded := decode(encoded);
    assert USER + ":" + PASS + ":" <= decoded;
    CredentialsMatchIff(decoded);
    BasicPassesIffCredentialsMatch(encoded, decode);
    assert decoded[4] == ':' && ':' !in decoded[..4];
    assert FirstIndex(decoded, ':') == 4;
  }

  /** `c` with ASCII `A`-`Z` folded to lower case. */
  function LowerAscii(c: char): char
  {
    if 'A' <= c <= 'Z' then (c as int + 32) as char else c
  }

  /** The token names the Basic scheme, compared without regard to case as section 2.1 of RFC 7235 asks. */
  predicate IsBasicScheme(token: string)
  {
    |token| == 5 && forall k :: 0 <= k < 5 ==> LowerAscii(token[k]) == "basic"[k]
  }

  /**
   * The evidently intended gate: only the Basic scheme (in any case) with
   * matching credentials passes; any other scheme is challenged, and a Basic
   * header without credentials is refused instead of throwing.
   */
  function DecideIntended(header: Option<string>, decode: string -> string): (d: Decision)
    ensures d != Throws
    ensures d == Challenge401 <==>
      header.None? || header.value == "" || !IsBasicScheme(Split(header.value, ' ')[0])
    ensures d == Pass <==>
      header.Some? && header.value != "" && IsBasicScheme(Split(header.value, ' ')[0])
      && |Split(header.value, ' ')| >= 2 && CredentialsMatch(decode(Split(header.value, ' ')[1]))
  {
    if header.None? || header.value == "" then Challenge401
    else
      var tokens := Split(header.value, ' ');
      if !IsBasicScheme(tokens[0]) then Challenge401
      else if |tokens| < 2 then Unauthorized401
      else if CredentialsMatch(decode(tokens[1])) then Pass
      else Unauthorized401
  }

  /** A decoder that never yields the credentials never gets a request through the intended gate. */
  lemma IntendedGateNeedsCredentials(header: Option<string>, decode: string -> string)
    requires forall s :: !CredentialsMatch(decode(s))
    ensures DecideIntended(header, decode) != Pass
  {
  }

  /** The gate as written lets a `Bearer` header through even when no credentials can be decoded. */
  lemma WrittenGateBypassedWithoutCredentials(decode: string -> string)
    requires forall s :: !CredentialsMatch(decode(s))
    ensures Decide(Some("Bearer x"), decode) == Pass
    ensures DecideIntended(Some("Bearer x"), decode) == Challenge401
  {
    OtherSchemePasses("Bearer", "x", decode);
    SplitAtFirst("Bearer", "x", ' ');
    assert !IsBasicScheme("Bearer");
  }
}

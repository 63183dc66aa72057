/** pplx_sdk/utils/auth.py: finding a session token in a cookie string, in
    an `Authorization` header value, or in the environment (given here as
    a map from variable names to values). */
module Auth {
  import opened Wrappers
  import opened Text

  /** The cookie names that hold a session token. */
  const SessionKeys: seq<string> := ["pplx.session-id", "pplx_session", "session-id", "session"]

  /** What one `;`-separated segment offers: the trimmed text after its
      first `=` when its trimmed key is a session name. */
  function SegmentToken(segment: string): Option<string> {
    var cookie := Strip(segment);
    if '=' in cookie then
      var (key, value) := Partition(cookie, '=');
      if Strip(key) in SessionKeys then Some(Strip(value)) else None
    else None
  }

  /** The first of `xs`, left to right, for which `offer` gives something. */
  function FirstOffer<T>(xs: seq<T>, offer: T -> Option<string>): (r: Option<string>)
    ensures r.None? <==> forall k | 0 <= k < |xs| :: offer(xs[k]).None?
    ensures r.Some? ==> exists k | 0 <= k < |xs| ::
      offer(xs[k]) == r && forall j | 0 <= j < k :: offer(xs[j]).None?
    decreases |xs|
  {
    if xs == [] then None
    else if offer(xs[0]).Some? then offer(xs[0])
    else
      var r := FirstOffer(xs[1..], offer);
      assert forall k | 1 <= k < |xs| :: xs[k] == xs[1..][k - 1];
      if r.Some? then
        var k :| 0 <= k < |xs[1..]| && offer(xs[1..][k]) == r
          && forall j | 0 <= j < k :: offer(xs[1..][j]).None?;
        assert offer(xs[k + 1]) == r;
        assert forall j | 0 <= j < k + 1 :: offer(xs[j]).None? by {
          forall j | 0 <= j < k + 1 ensures offer(xs[j]).None? {
            if j > 0 {
              assert xs[j] == xs[1..][j - 1];
            }
          }
        }
        r
      else r
  }

  /** The first segment, left to right, that offers a token. */
  function FirstToken(segments: seq<string>): (r: Option<string>)
    ensures r.None? <==> forall k | 0 <= k < |segments| :: SegmentToken(segments[k]).None?
    ensures r.Some? ==> exists k | 0 <= k < |segments| ::
      SegmentToken(segments[k]) == r && forall j | 0 <= j < k :: SegmentToken(segments[j]).None?
  {
    FirstOffer(segments, SegmentToken)
  }

  /** `extract_token_from_cookies`. */
  function ExtractTokenFromCookies(cookieString: string): Option<string> {
    FirstToken(Split(cookieString, ';'))
  }

  /** A segment `key=value` with a session key yields its value, which is
      everything after the first `=` and so may hold more `=` signs. */
  lemma SessionSegment(key: string, value: string)
    requires key in SessionKeys
    requires value == [] || (!IsSpace(value[0]) && !IsSpace(value[|value| - 1]))
    ensures SegmentToken(key + "=" + value) == Some(value)
  {
    var cookie := key + "=" + value;
    assert cookie == key + ['='] + value;
    assert !IsSpace(key[0]) && !IsSpace(key[|key| - 1]);
    assert cookie[0] == key[0];
    assert !IsSpace(cookie[|cookie| - 1]) by {
      if value == [] {
        assert cookie[|cookie| - 1] == '=';
      } else {
        assert cookie[|cookie| - 1] == value[|value| - 1];
      }
    }
    StripOfTrimmed(cookie);
    assert '=' !in key;
    PartitionOf(key, '=', value);
    StripOfTrimmed(key);
    StripOfTrimmed(value);
  }

  /** Spaces around a segment do not matter. */
  lemma PaddedSegment(segment: string)
    requires segment != [] && Strip(segment) == segment
    ensures SegmentToken(" " + segment + " ") == SegmentToken(segment)
  {
    Trimmed(segment);
    StripPadded(segment);
  }

  /** A string that `strip` leaves alone and that is not empty starts and
      ends with a non-space character. */
  lemma Trimmed(s: string)
    requires Strip(s) == s && s != []
    ensures !IsSpace(s[0]) && !IsSpace(s[|s| - 1])
  {
    assert LStrip(s) == s by {
      assert |RStrip(LStrip(s))| <= |LStrip(s)| <= |s|;
    }
  }

  /** One space on each side of a trimmed, non-empty string is stripped
      off and nothing else. */
  lemma StripPadded(s: string)
    requires s != [] && !IsSpace(s[0]) && !IsSpace(s[|s| - 1])
    ensures Strip(" " + s + " ") == s
  {
    var t := " " + s + " ";
    assert t[1..] == s + " ";
    assert LStrip(t) == LStrip(s + " ");
    assert (s + " ")[0] == s[0];
    LStripOfNonSpace(s + " ");
    assert (s + " ")[..|s + " "| - 1] == s;
    assert RStrip(s + " ") == RStrip(s);
    StripOfTrimmed(s);
  }

  /** A cookie string that starts with a session cookie yields that
      cookie's value, whatever follows it. */
  lemma FirstCookieWins(key: string, value: string, rest: string)
    requires key in SessionKeys
    requires ';' !in value
    requires value == [] || (!IsSpace(value[0]) && !IsSpace(value[|value| - 1]))
    ensures ExtractTokenFromCookies(key + "=" + value + ";" + rest) == Some(value)
  {
    var cookie := key + "=" + value;
    var s := cookie + ";" + rest;
    assert key + "=" + value + ";" + rest == s;
    assert ';' !in cookie by {
      assert ';' !in key;
      assert cookie == key + ['='] + value;
    }
    assert s[..|cookie|] == cookie;
    assert s[|cookie|] == ';';
    var i := IndexOf(s, ';');
    assert i.Some?;
    assert i.value >= |cookie| by {
      assert forall j | 0 <= j < |cookie| :: s[j] == cookie[j];
    }
    assert i.value <= |cookie| by {
      assert s[|cookie|] == ';';
      assert forall j | |cookie| < j <= |s| :: s[..j][|cookie|] == ';';
    }
    assert s[|cookie| + 1..] == rest;
    assert Split(s, ';') == [cookie] + Split(rest, ';');
    SessionSegment(key, value);
  }

  /** `extract_token_from_header`: nothing for a missing or empty header,
      the text after `"Bearer "`, or else the header as it is. */
  function ExtractTokenFromHeader(authHeader: Option<string>): (r: Option<string>)
    ensures !Truthy(authHeader) ==> r.None?
    ensures Truthy(authHeader) && !StartsWith(authHeader.value, "Bearer ") ==> r == authHeader
  {
    if !Truthy(authHeader) then None
    else if StartsWith(authHeader.value, "Bearer ") then Some(authHeader.value[7..])
    else authHeader
  }

  /** The header built from a token gives the token back, the empty one
      included. */
  lemma BearerRoundTrip(token: string)
    ensures ExtractTokenFromHeader(Some("Bearer " + token)) == Some(token)
  {
    var h := "Bearer " + token;
    assert h[..7] == "Bearer ";
    assert h[7..] == token;
  }

  /** The variables `get_token_from_env` reads, in order. */
  const TokenVariables: seq<string> := ["PPLX_AUTH_TOKEN", "PPLX_SESSION_TOKEN", "PERPLEXITY_AUTH_TOKEN"]

  /** `os.getenv(name)`. */
  function GetEnv(env: map<string, string>, name: string): Option<string> {
    if name in env then Some(env[name]) else None
  }

  /** A variable's value when it is set and non-empty. */
  function SetValue(env: map<string, string>, name: string): (v: Option<string>)
    ensures v.Some? <==> Truthy(GetEnv(env, name))
    ensures v.Some? ==> v == GetEnv(env, name)
  {
    if Truthy(GetEnv(env, name)) then GetEnv(env, name) else None
  }

  /** The first of the names whose variable is set and non-empty. */
  function FirstSet(env: map<string, string>, names: seq<string>): (r: Option<string>)
    ensures r.None? <==> forall k | 0 <= k < |names| :: !Truthy(GetEnv(env, names[k]))
    ensures r.Some? ==> exists k | 0 <= k < |names| ::
      GetEnv(env, names[k]) == r && r.value != "" && forall j | 0 <= j < k :: !Truthy(GetEnv(env, names[j]))
  {
    FirstOffer(names, name => SetValue(env, name))
  }

  /** `get_token_from_env`. */
  function GetTokenFromEnv(env: map<string, string>): Option<string> {
    FirstSet(env, TokenVariables)
  }

  /** An empty `PPLX_AUTH_TOKEN` does not hide a later variable. */
  lemma EmptyVariableSkipped(env: map<string, string>, token: string)
    requires token != ""
    requires "PPLX_AUTH_TOKEN" in env && env["PPLX_AUTH_TOKEN"] == ""
    requires "PPLX_SESSION_TOKEN" in env && env["PPLX_SESSION_TOKEN"] == token
    ensures GetTokenFromEnv(env) == Some(token)
  {
    assert TokenVariables[1..] == ["PPLX_SESSION_TOKEN", "PERPLEXITY_AUTH_TOKEN"];
  }
}

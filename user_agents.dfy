/**
 * The user-agent string both card-status builders compute: the implementation
 * title upper-cased (root locale), every character outside [A-Z0-9] replaced
 * by '_', then "agent/version".
 */
module UserAgents {
  import opened Wrappers

  predicate IsAscii(s: string) {
    forall i :: 0 <= i < |s| ==> s[i] < 128 as char
  }

  /** Root-locale upper-casing restricted to ASCII: only 'a'..'z' change. */
  function ToUpperAscii(c: char): (u: char)
    ensures 'a' <= c <= 'z' ==> u as int == c as int - 32
    ensures !('a' <= c <= 'z') ==> u == c
  {
    if 'a' <= c <= 'z' then (c as int - 32) as char else c
  }

  /** The character class the sanitiser keeps: [A-Z0-9]. */
  predicate IsKept(c: char) {
    'A' <= c <= 'Z' || '0' <= c <= '9'
  }

  /** A character that can appear in a sanitised agent: [A-Z0-9_]. */
  predicate IsAgentChar(c: char) {
    IsKept(c) || c == '_'
  }

  predicate IsAgent(s: string) {
    forall i :: 0 <= i < |s| ==> IsAgentChar(s[i])
  }

  function SanitiseChar(c: char): (r: char)
    ensures IsAgentChar(r)
  {
    var u := ToUpperAscii(c);
    if IsKept(u) then u else '_'
  }

  /**
   * `title.toUpperCase(Locale.ROOT).replaceAll("[^A-Z0-9]", "_")` on an ASCII
   * title (outside ASCII, upper-casing may change a character or the length).
   */
  function Sanitise(title: string): (agent: string)
    requires IsAscii(title)
    ensures |agent| == |title|
    ensures IsAgent(agent) && IsAscii(agent)
    ensures forall i :: 0 <= i < |title| && IsKept(ToUpperAscii(title[i])) ==> agent[i] == ToUpperAscii(title[i])
    ensures forall i :: 0 <= i < |title| && !IsKept(ToUpperAscii(title[i])) ==> agent[i] == '_'
  {
    seq(|title|, i requires 0 <= i < |title| => SanitiseChar(title[i]))
  }

  /** `"%s/%s".formatted(agent, version)`. */
  function Format(agent: string, version: string): (ua: string)
    ensures |ua| == |agent| + 1 + |version|
    ensures ua[..|agent|] == agent && ua[|agent|] == '/' && ua[|agent| + 1..] == version
  {
    agent + "/" + version
  }

  /** The position of the first '/' in `s`, or |s| when there is none. */
  function FirstSlash(s: string): (k: nat)
    ensures k <= |s|
    ensures k < |s| ==> s[k] == '/'
    ensures forall i :: 0 <= i < k ==> s[i] != '/'
  {
    if s == [] then 0
    else if s[0] == '/' then 0
    else 1 + FirstSlash(s[1..])
  }

  /** Splits a user agent at its first '/' into agent and version. */
  function Split(ua: string): (parts: (string, string))
    ensures '/' in ua ==> ua == Format(parts.0, parts.1) && '/' !in parts.0
    ensures '/' !in ua ==> parts == (ua, "")
  {
    var k := FirstSlash(ua);
    if k < |ua| then (ua[..k], ua[k + 1..]) else (ua, "")
  }

  /** A sanitised agent never contains '/', so it and the version can be recovered. */
  lemma SplitFormat(agent: string, version: string)
    requires IsAgent(agent)
    ensures Split(Format(agent, version)) == (agent, version)
  {
  }

  /** Sanitising twice is sanitising once. */
  lemma SanitiseIdempotent(title: string)
    requires IsAscii(title)
    ensures Sanitise(Sanitise(title)) == Sanitise(title)
  {
  }

  /** A title is left unchanged exactly when it already is an agent. */
  lemma SanitiseFixedPoint(title: string)
    requires IsAscii(title)
    ensures Sanitise(title) == title <==> IsAgent(title)
  {
  }

  /**
   * `userAgent()`: the title from the package manifest or the package's
   * default, sanitised, then '/', then the version or the default version.
   */
  function Build(defaultTitle: string, defaultVersion: string, title: Option<string>, version: Option<string>): (ua: string)
    requires IsAscii(title.GetOr(defaultTitle))
    ensures var t, v := title.GetOr(defaultTitle), version.GetOr(defaultVersion);
      && |ua| == |t| + 1 + |v|
      && ua[..|t|] == Sanitise(t) && ua[|t|] == '/' && ua[|t| + 1..] == v
  {
    Format(Sanitise(title.GetOr(defaultTitle)), version.GetOr(defaultVersion))
  }

  /** The agent and the version can be read back from a user agent, and the agent is in [A-Z0-9_]*. */
  lemma BuildRoundTrip(defaultTitle: string, defaultVersion: string, title: Option<string>, version: Option<string>)
    requires IsAscii(title.GetOr(defaultTitle))
    ensures var ua := Build(defaultTitle, defaultVersion, title, version);
      && '/' in ua
      && Split(ua) == (Sanitise(title.GetOr(defaultTitle)), version.GetOr(defaultVersion))
      && IsAgent(Split(ua).0)
  {
    SplitFormat(Sanitise(title.GetOr(defaultTitle)), version.GetOr(defaultVersion));
  }
}

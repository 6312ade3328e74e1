/** Parsing a quick-connect target such as `root@example.com:22`. */
module QuickConnect {
  import opened Prelude

  datatype Target = Target(username: string, host: string, port: nat)

  const DEFAULT_USER := "root"
  const DEFAULT_PORT: nat := 22

  // ---------------------------------------------------------------- string operations

  /** White space and line terminators of ECMAScript, as `trim` removes them. */
  predicate IsSpace(c: char) {
    || '\U{9}' <= c <= '\U{D}' || c == ' ' || c == '\U{A0}' || c == '\U{1680}' || '\U{2000}' <= c <= '\U{200A}'
    || c == '\U{2028}' || c == '\U{2029}' || c == '\U{202F}' || c == '\U{205F}' || c == '\U{3000}' || c == '\U{FEFF}'
  }

  function TrimStart(s: string): string {
    if s != "" && IsSpace(s[0]) then TrimStart(s[1..]) else s
  }

  function TrimEnd(s: string): string {
    if s != "" && IsSpace(s[|s| - 1]) then TrimEnd(s[..|s| - 1]) else s
  }

  function Trim(s: string): string {
    TrimEnd(TrimStart(s))
  }

  /** The text before and after the last occurrence of a character. */
  function SplitLast(s: string, c: char): (r: Option<(string, string)>)
    ensures r.Some? ==> s == r.value.0 + [c] + r.value.1 && c !in r.value.1
    ensures r.None? <==> c !in s
  {
    if s == "" then None
    else if s[|s| - 1] == c then
      assert s == s[..|s| - 1] + [c] + "";
      Some((s[..|s| - 1], ""))
    else
      var r := SplitLast(s[..|s| - 1], c);
      assert s == s[..|s| - 1] + [s[|s| - 1]];
      if r.None? then None
      else
        assert s == r.value.0 + [c] + (r.value.1 + [s[|s| - 1]]);
        Some((r.value.0, r.value.1 + [s[|s| - 1]]))
  }

  predicate IsDigit(c: char) { '0' <= c <= '9' }

  predicate AllDigits(s: string) {
    s != "" && forall c :: c in s ==> IsDigit(c)
  }

  /** The number decimal digits stand for. */
  function Decimal(s: string): nat
    requires forall c :: c in s ==> IsDigit(c)
  {
    if s == "" then 0
    else
      assert IsDigit(s[|s| - 1]);
      Decimal(s[..|s| - 1]) * 10 + (s[|s| - 1] - '0') as nat
  }

  /** The decimal digits of a number, as template strings print it. */
  function Printed(n: nat): (s: string)
    ensures AllDigits(s)
  {
    if n < 10 then ['0' + n as char] else Printed(n / 10) + ['0' + (n % 10) as char]
  }

  // ---------------------------------------------------------------- the parser and its printer

  /** The part after the last '@' as host and port. */
  function HostAndPort(rest: string): (string, nat) {
    var colon := SplitLast(rest, ':');
    if colon.Some? && AllDigits(colon.value.1) then
      var port := Decimal(colon.value.1);
      (colon.value.0, if port == 0 then DEFAULT_PORT else port)
    else (rest, DEFAULT_PORT)
  }

  function ParseTarget(s: string): Option<Target> {
    var t := Trim(s);
    if t == "" then None
    else
      var at := SplitLast(t, '@');
      var username := if at.Some? then at.value.0 else DEFAULT_USER;
      var (host, port) := HostAndPort(if at.Some? then at.value.1 else t);
      if Trim(host) == "" then None
      else Some(Target(if Trim(username) == "" then DEFAULT_USER else Trim(username), Trim(host), port))
  }

  function Print(t: Target): string {
    t.username + "@" + t.host + ":" + Printed(t.port)
  }

  // ---------------------------------------------------------------- trimming

  /** Neither begins nor ends with white space. */
  predicate Trimmed(s: string) {
    s != "" ==> !IsSpace(s[0]) && !IsSpace(s[|s| - 1])
  }

  lemma {:induction false} TrimStartSuffix(s: string)
    ensures var r := TrimStart(s);
            |r| <= |s| && r == s[|s| - |r|..] && (r != "" ==> !IsSpace(r[0]))
  {
    if s != "" && IsSpace(s[0]) { TrimStartSuffix(s[1..]); }
  }

  lemma {:induction false} TrimEndPrefix(s: string)
    ensures var r := TrimEnd(s);
            |r| <= |s| && r == s[..|r|] && (r != "" ==> !IsSpace(r[|r| - 1]))
  {
    if s != "" && IsSpace(s[|s| - 1]) { TrimEndPrefix(s[..|s| - 1]); }
  }

  /** Trimming yields a trimmed stretch of the string. */
  lemma TrimTrims(s: string)
    ensures Trimmed(Trim(s))
    ensures forall c :: c in Trim(s) ==> c in s
  {
    TrimStartSuffix(s);
    TrimEndPrefix(TrimStart(s));
  }

  lemma TrimOfTrimmed(s: string)
    requires Trimmed(s)
    ensures Trim(s) == s
  {
  }

  // ---------------------------------------------------------------- splitting and numbers

  /** The last separator is the one before a part that has none. */
  lemma SplitLastAt(a: string, c: char, b: string)
    requires c !in b
    ensures SplitLast(a + [c] + b, c) == Some((a, b))
  {
    var s := a + [c] + b;
    var r := SplitLast(s, c);
    assert s[|a|] == c;
    var (x, y) := r.value;
    assert s[|x|] == c;
    assert x == s[..|x|] && a == s[..|a|];
    assert y == s[|x| + 1..] && b == s[|a| + 1..];
  }

  lemma {:induction false} DecimalOfPrinted(n: nat)
    ensures Decimal(Printed(n)) == n
  {
    if n >= 10 {
      DecimalOfPrinted(n / 10);
      var s := Printed(n);
      assert s[..|s| - 1] == Printed(n / 10);
    }
  }

  // ---------------------------------------------------------------- main results

  /** A target that the printed form spells out in full. */
  predicate Printable(t: Target) {
    && t.username != "" && Trimmed(t.username)
    && t.host != "" && Trimmed(t.host) && '@' !in t.host
    && t.port >= 1
  }

  lemma HostAndPortOfPrinted(host: string, port: nat)
    requires port >= 1
    ensures HostAndPort(host + ":" + Printed(port)) == (host, port)
  {
    SplitLastAt(host, ':', Printed(port));
    DecimalOfPrinted(port);
  }

  /** Parsing inverts printing, even with '@' in the user or ':' in the host. */
  lemma ParseOfPrint(t: Target)
    requires Printable(t)
    ensures ParseTarget(Print(t)) == Some(t)
  {
    var rest := t.host + ":" + Printed(t.port);
    var s := t.username + "@" + rest;
    assert Print(t) == s;
    assert s[|s| - 1] == Printed(t.port)[|Printed(t.port)| - 1];
    TrimOfTrimmed(s);
    SplitLastAt(t.username, '@', rest);
    HostAndPortOfPrinted(t.host, t.port);
    TrimOfTrimmed(t.username);
    TrimOfTrimmed(t.host);
  }

  lemma HostAndPortKeep(rest: string)
    requires '@' !in rest
    ensures '@' !in HostAndPort(rest).0 && HostAndPort(rest).1 >= 1
  {
  }

  lemma ParsedParts(username: string, host: string, port: nat)
    requires '@' !in host && port >= 1 && Trim(host) != ""
    ensures Printable(Target(if Trim(username) == "" then DEFAULT_USER else Trim(username), Trim(host), port))
  {
    TrimTrims(username);
    TrimTrims(host);
    assert Trimmed(DEFAULT_USER);
  }

  /** Every target the parser yields can be printed and parsed again to the same target. */
  lemma ParsedIsPrintable(s: string)
    requires ParseTarget(s).Some?
    ensures Printable(ParseTarget(s).value)
    ensures ParseTarget(Print(ParseTarget(s).value)) == ParseTarget(s)
  {
    var t := Trim(s);
    var at := SplitLast(t, '@');
    var rest := if at.Some? then at.value.1 else t;
    HostAndPortKeep(rest);
    ParsedParts(if at.Some? then at.value.0 else DEFAULT_USER, HostAndPort(rest).0, HostAndPort(rest).1);
    ParseOfPrint(ParseTarget(s).value);
  }

  /** Nothing but white space. */
  predicate Blank(s: string) {
    forall c :: c in s ==> IsSpace(c)
  }

  lemma {:induction false} TrimStartBlank(s: string)
    ensures TrimStart(s) == "" <==> Blank(s)
  {
    if s != "" {
      assert s == [s[0]] + s[1..];
      TrimStartBlank(s[1..]);
    }
  }

  lemma TrimBlank(s: string)
    ensures Trim(s) == "" <==> Blank(s)
  {
    TrimStartBlank(s);
    TrimStartSuffix(s);
    var r := TrimStart(s);
    TrimEndPrefix(r);
    if r != "" && TrimEnd(r) == "" { TrimEndKeepsFirst(r); }
  }

  lemma {:induction false} TrimEndKeepsFirst(s: string)
    requires s != "" && !IsSpace(s[0])
    ensures TrimEnd(s) != ""
  {
    if IsSpace(s[|s| - 1]) { TrimEndKeepsFirst(s[..|s| - 1]); }
  }

  /** A colon and digits, or nothing. */
  predicate PortSuffix(p: string) {
    p == "" || (p[0] == ':' && AllDigits(p[1..]))
  }

  predicate BlankBefore(rest: string, h: string, p: string) {
    rest == h + p && Blank(h) && PortSuffix(p)
  }

  /** A blank host, and after it perhaps a colon and digits. */
  ghost predicate NoHost(rest: string) {
    exists h, p :: BlankBefore(rest, h, p)
  }

  lemma BlankHostRead(rest: string, h: string, p: string)
    requires BlankBefore(rest, h, p)
    ensures Blank(HostAndPort(rest).0)
  {
    if p == "" {
      assert rest == h;
    } else {
      assert p == [':'] + p[1..];
      assert rest == h + [':'] + p[1..];
      SplitLastAt(h, ':', p[1..]);
    }
  }

  lemma HostReadBlank(rest: string)
    requires Blank(HostAndPort(rest).0)
    ensures NoHost(rest)
  {
    var host, colon := HostAndPort(rest).0, SplitLast(rest, ':');
    if colon.Some? && AllDigits(colon.value.1) {
      var p := [':'] + colon.value.1;
      assert p[1..] == colon.value.1;
      assert rest == host + p;
      assert BlankBefore(rest, host, p);
    } else {
      assert rest == host + "";
      assert BlankBefore(rest, host, "");
    }
  }

  /** A target is rejected exactly when, after its last '@', it names no host. */
  lemma RejectedIff(s: string)
    ensures var t := Trim(s);
            ParseTarget(s).None? <==> NoHost(if SplitLast(t, '@').Some? then SplitLast(t, '@').value.1 else t)
  {
    var t := Trim(s);
    var rest := if SplitLast(t, '@').Some? then SplitLast(t, '@').value.1 else t;
    if NoHost(rest) {
      var h, p :| BlankBefore(rest, h, p);
      BlankHostRead(rest, h, p);
    }
    if Blank(HostAndPort(rest).0) { HostReadBlank(rest); }
    TrimBlank(HostAndPort(rest).0);
  }

  const SPACES := "\U{9}\U{A}\U{B}\U{C}\U{D} \U{A0}\U{1680}\U{2028}\U{2029}\U{202F}\U{205F}\U{3000}\U{FEFF}"

  /** The white space and line terminators of ECMAScript, spelled out, with the spaces U+2000 to U+200A. */
  lemma SpaceTable(c: char)
    ensures IsSpace(c) <==> c in SPACES || '\U{2000}' <= c <= '\U{200A}'
  {
  }

  // ---------------------------------------------------------------- what may be left out

  /** Ends in a colon and digits, as a port would be written. */
  predicate EndsInPort(h: string) {
    var colon := SplitLast(h, ':');
    colon.Some? && AllDigits(colon.value.1)
  }

  /** A host on its own, or after an '@'. */
  predicate BareHost(h: string) {
    h != "" && Trimmed(h) && '@' !in h
  }

  lemma NoUser(h: string)
    requires '@' !in h
    ensures SplitLast(h, '@').None?
  {
  }

  /** Without a user and a port, the user is root and the port 22. */
  lemma HostAlone(h: string)
    requires BareHost(h) && !EndsInPort(h)
    ensures ParseTarget(h) == Some(Target("root", h, 22))
  {
    NoUser(h);
    TrimOfTrimmed(h);
    TrimOfTrimmed("root");
  }

  /** Without a user, it is root. */
  lemma HostWithPort(h: string, port: nat)
    requires BareHost(h)
    ensures ParseTarget(h + ":" + Printed(port)) == Some(Target("root", h, if port == 0 then 22 else port))
  {
    var s := h + ":" + Printed(port);
    assert s[|s| - 1] == Printed(port)[|Printed(port)| - 1];
    NoUser(s);
    TrimOfTrimmed(s);
    TrimOfTrimmed(h);
    TrimOfTrimmed("root");
    SplitLastAt(h, ':', Printed(port));
    DecimalOfPrinted(port);
  }

  /** Without a port, it is 22; and an empty user is root. */
  lemma UserWithHost(user: string, h: string)
    requires BareHost(h) && !EndsInPort(h) && Trimmed(user)
    ensures ParseTarget(user + "@" + h) == Some(Target(if user == "" then "root" else user, h, 22))
  {
    var s := user + "@" + h;
    assert s[|s| - 1] == h[|h| - 1];
    assert s[0] == if user == "" then '@' else user[0];
    TrimOfTrimmed(s);
    SplitLastAt(user, '@', h);
    TrimOfTrimmed(user);
    TrimOfTrimmed(h);
  }

  /** White space around the parts does not matter either, and a user of nothing else is root. */
  lemma PartsTrimmed(user: string, h: string)
    requires Trimmed(user + "@" + h) && '@' !in h && !EndsInPort(h) && !Blank(h)
    ensures ParseTarget(user + "@" + h) == Some(Target(if Blank(user) then "root" else Trim(user), Trim(h), 22))
  {
    TrimOfTrimmed(user + "@" + h);
    SplitLastAt(user, '@', h);
    TrimBlank(user);
    TrimBlank(h);
  }

  /** Port 0 is taken for no port given. */
  lemma PortZero(user: string, h: string)
    requires BareHost(h) && user != "" && Trimmed(user)
    ensures ParseTarget(user + "@" + h + ":" + "0") == Some(Target(user, h, 22))
  {
    var rest := h + ":" + "0";
    var s := user + "@" + rest;
    assert user + "@" + h + ":" + "0" == s;
    assert s[|s| - 1] == '0';
    TrimOfTrimmed(s);
    SplitLastAt(user, '@', rest);
    HostWithZero(h);
    TrimOfTrimmed(user);
    TrimOfTrimmed(h);
  }

  lemma HostWithZero(h: string)
    ensures HostAndPort(h + ":" + "0") == (h, 22)
  {
    SplitLastAt(h, ':', "0");
    assert Printed(0) == "0";
    DecimalOfPrinted(0);
  }

  /** White space around the target does not matter. */
  lemma TrimmedFirst(s: string)
    ensures ParseTarget(s) == ParseTarget(Trim(s))
  {
    TrimTrims(s);
    TrimOfTrimmed(Trim(s));
  }
}

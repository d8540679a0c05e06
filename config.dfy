/** Configuration: the values `parse_osticket_config` extracts from the PHP
    `define('KEY', 'value')` lines of ost-config.php, the settings they provide with their
    defaults, the `ALLOWED_HOSTS` parser and the SQLAlchemy database URL. Reading the file
    is left to the caller, who passes its text, or None when it is missing or unreadable;
    `json.loads` is a parameter. */
module Config {
  import opened Wrappers
  import opened PyText
  import opened PyValue

  // ---------------------------------------------------------------------------
  // define() extraction

  predicate IsQuote(c: char) {
    c == '\'' || c == '"'
  }

  /** Where a run of whitespace starting at `i` ends: what `\s*` consumes. */
  function SkipSpaces(s: string, i: nat): (j: nat)
    requires i <= |s|
    ensures i <= j <= |s|
    ensures forall k :: i <= k < j ==> IsSpace(s[k])
    ensures j < |s| ==> !IsSpace(s[j])
    decreases |s| - i
  {
    if i < |s| && IsSpace(s[i]) then SkipSpaces(s, i + 1) else i
  }

  /** Where a run of non-quote characters starting at `i` ends: what `[^'"]*` consumes. */
  function SkipValue(s: string, i: nat): (j: nat)
    requires i <= |s|
    ensures i <= j <= |s|
    ensures forall k :: i <= k < j ==> !IsQuote(s[k])
    ensures j < |s| ==> IsQuote(s[j])
    decreases |s| - i
  {
    if i < |s| && !IsQuote(s[i]) then SkipValue(s, i + 1) else i
  }

  /** `s` has the text `w` at position `i`. */
  predicate LiteralAt(s: string, i: nat, w: string) {
    i + |w| <= |s| && s[i..i + |w|] == w
  }

  /** The pattern ``define\s*\(\s*['"]KEY['"]\s*,\s*['"]([^'"]+)['"]`` (with `*` for the
      value when `allowEmpty`) matched at exactly position `i`, and the group it captures.
      Each `\s*` and the value run are followed by a character they cannot consume, so
      consuming greedily is the only way to match. */
  function MatchAt(s: string, i: nat, key: string, allowEmpty: bool): (r: Option<string>)
    requires i <= |s|
    ensures r.Some? ==> (forall k :: 0 <= k < |r.value| ==> !IsQuote(r.value[k])) && (allowEmpty || r.value != "")
  {
    if !LiteralAt(s, i, "define") then None
    else
      var a := SkipSpaces(s, i + 6);
      if !(a < |s| && s[a] == '(') then None
      else
        var b := SkipSpaces(s, a + 1);
        if !(b < |s| && IsQuote(s[b])) || !LiteralAt(s, b + 1, key) then None
        else
          var c := b + 1 + |key|;
          if !(c < |s| && IsQuote(s[c])) then None
          else
            var d := SkipSpaces(s, c + 1);
            if !(d < |s| && s[d] == ',') then None
            else
              var e := SkipSpaces(s, d + 1);
              if !(e < |s| && IsQuote(s[e])) then None
              else
                var f := SkipValue(s, e + 1);
                if f < |s| && (allowEmpty || f > e + 1) then Some(s[e + 1..f]) else None
  }

  /** The match at any position: none past the end of the text. */
  function MatchAny(s: string, p: nat, key: string, allowEmpty: bool): Option<string> {
    if p <= |s| then MatchAt(s, p, key, allowEmpty) else None
  }

  /** The first position in `i..n` where `found` holds something: how `re.search` scans. */
  function FirstFrom(found: nat -> Option<string>, i: nat, n: nat): (p: Option<nat>)
    requires i <= n
    ensures p.Some? ==> i <= p.value <= n && found(p.value).Some? && forall q :: i <= q < p.value ==> found(q).None?
    ensures p.None? ==> forall q :: i <= q <= n ==> found(q).None?
    decreases n - i
  {
    if found(i).Some? then Some(i)
    else if i == n then None
    else FirstFrom(found, i + 1, n)
  }

  /** `re.search`: the group captured by the match that starts first. */
  function Search(s: string, key: string, allowEmpty: bool): (r: Option<string>)
    ensures r.Some? ==> (forall k :: 0 <= k < |r.value| ==> !IsQuote(r.value[k])) && (allowEmpty || r.value != "")
  {
    match FirstFrom((p: nat) => MatchAny(s, p, key, allowEmpty), 0, |s|)
    case None => None
    case Some(p) => MatchAny(s, p, key, allowEmpty)
  }

  /** A match at the very start of the text is the one the search returns. */
  lemma SearchAtStart(s: string, key: string, allowEmpty: bool)
    requires MatchAt(s, 0, key, allowEmpty).Some?
    ensures Search(s, key, allowEmpty) == MatchAt(s, 0, key, allowEmpty)
  {
    var found := (p: nat) => MatchAny(s, p, key, allowEmpty);
    assert found(0).Some?;
    assert FirstFrom(found, 0, |s|) == Some(0);
  }

  /** A text where the pattern matches nowhere yields nothing, and a result is always the
      group of a match that no earlier position has. */
  lemma SearchIsFirstMatch(s: string, key: string, allowEmpty: bool)
    ensures Search(s, key, allowEmpty).None? <==> forall p :: 0 <= p <= |s| ==> MatchAt(s, p, key, allowEmpty).None?
    ensures Search(s, key, allowEmpty).Some? ==>
              exists p :: 0 <= p <= |s| && MatchAt(s, p, key, allowEmpty) == Search(s, key, allowEmpty)
                          && forall q :: 0 <= q < p ==> MatchAt(s, q, key, allowEmpty).None?
  {
    var found := (p: nat) => MatchAny(s, p, key, allowEmpty);
    var first := FirstFrom(found, 0, |s|);
    assert Search(s, key, allowEmpty) == if first.Some? then MatchAny(s, first.value, key, allowEmpty) else None;
    if first.Some? {
      var p := first.value;
      forall q | 0 <= q < p
        ensures MatchAt(s, q, key, allowEmpty).None?
      {
        assert found(q).None?;
      }
      assert found(p).Some?;
    } else {
      forall q | 0 <= q <= |s|
        ensures MatchAt(s, q, key, allowEmpty).None?
      {
        assert found(q).None?;
      }
    }
  }

  /** The keys `parse_osticket_config` looks for, in order. */
  const ConfigKeys: seq<string> := ["DBHOST", "DBNAME", "DBUSER", "DBPASS", "TABLE_PREFIX", "SECRET_SALT"]

  /** The pattern for `key`: only TABLE_PREFIX may be defined as the empty string. */
  function Pattern(content: string, key: string): Option<string> {
    Search(content, key, key == "TABLE_PREFIX")
  }

  /** The dictionary an extraction with `find` builds: each key `find` has a value for,
      mapped to that value; the other keys are absent. */
  function Extract(keys: seq<string>, find: string -> Option<string>): (m: map<string, string>)
    ensures forall k :: k in m <==> k in keys && find(k).Some?
    ensures forall k :: k in m ==> Some(m[k]) == find(k)
  {
    map k | k in keys && find(k).Some? :: find(k).value
  }

  /** The search for each key in one text. */
  function Finder(content: string): string -> Option<string> {
    k => Pattern(content, k)
  }

  /** What `parse_osticket_config` returns for a file with text `content`. */
  function Extracted(content: string): (m: map<string, string>)
    ensures forall k :: k in m <==> k in ConfigKeys && Pattern(content, k).Some?
    ensures forall k :: k in m ==> Some(m[k]) == Pattern(content, k)
  {
    Extract(ConfigKeys, Finder(content))
  }

  /** The extraction loop: the keys in order, each kept when `find` has a value for it. */
  method Collect(keys: seq<string>, find: string -> Option<string>) returns (config: map<string, string>)
    ensures config == Extract(keys, find)
  {
    config := map[];
    for i := 0 to |keys|
      invariant forall k :: k in config <==> k in keys[..i] && find(k).Some?
      invariant forall k :: k in config ==> Some(config[k]) == find(k)
    {
      var key := keys[i];
      var found := find(key);
      assert keys[..i + 1] == keys[..i] + [key];
      if found.Some? {
        config := config[key := found.value];
      }
    }
    assert keys[..|keys|] == keys;
  }

  /** `parse_osticket_config`: an empty dictionary for a missing or unreadable file,
      otherwise one search per key. */
  method ParseOsticketConfig(file: Option<string>) returns (config: map<string, string>)
    ensures file.None? ==> config == map[]
    ensures file.Some? ==> config == Extracted(file.value)
  {
    if file.None? {
      return map[];
    }
    config := Collect(ConfigKeys, Finder(file.value));
  }

  /** `define('KEY', 'value');` as ost-config.php writes it. */
  function Render(key: string, value: string): string {
    "define('" + key + "', '" + value + "');"
  }

  /** The pattern reads back the value of a rendered definition. */
  lemma RenderMatches(key: string, value: string, rest: string, allowEmpty: bool)
    requires forall k :: 0 <= k < |value| ==> !IsQuote(value[k])
    requires allowEmpty || value != ""
    ensures MatchAt(Render(key, value) + rest, 0, key, allowEmpty) == Some(value)
  {
    RenderLayout(key, value, rest);
    LaidOutMatches(Render(key, value) + rest, key, value, allowEmpty);
  }

  /** The layout of a rendered definition followed by anything. */
  predicate LaidOut(s: string, key: string, value: string) {
    var c := 8 + |key|;
    && c + 5 + |value| <= |s|
    && s[..6] == "define" && s[6] == '(' && s[7] == '\'' && s[8..c] == key
    && s[c] == '\'' && s[c + 1] == ',' && s[c + 2] == ' ' && s[c + 3] == '\''
    && s[c + 4..c + 4 + |value|] == value && s[c + 4 + |value|] == '\''
  }

  /** A text laid out like a rendered definition matches at its start, capturing the value. */
  lemma LaidOutMatches(s: string, key: string, value: string, allowEmpty: bool)
    requires LaidOut(s, key, value)
    requires forall k :: 0 <= k < |value| ==> !IsQuote(value[k])
    requires allowEmpty || value != ""
    ensures MatchAt(s, 0, key, allowEmpty) == Some(value)
  {
    var c := 8 + |key|;
    NoSpaceHere(s, 6);
    NoSpaceHere(s, 7);
    NoSpaceHere(s, c + 1);
    NoSpaceHere(s, c + 3);
    assert IsSpace(s[c + 2]);
    forall k | c + 4 <= k < c + 4 + |value|
      ensures !IsQuote(s[k])
    {
      assert s[k] == value[k - (c + 4)];
    }
    SkipValueOver(s, c + 4, |value|);
    MatchAtRendered(s, key, allowEmpty, c + 4 + |value|);
  }

  /** A character that is not whitespace ends the run at once. */
  lemma NoSpaceHere(s: string, i: nat)
    requires i < |s| && (s[i] == '(' || s[i] == ',' || IsQuote(s[i]))
    ensures SkipSpaces(s, i) == i
  {
  }

  /** Where the pieces of a rendered definition sit. */
  lemma RenderLayout(key: string, value: string, rest: string)
    ensures LaidOut(Render(key, value) + rest, key, value)
  {
    var s := Render(key, value) + rest;
    var c := 8 + |key|;
    var head := "define('";
    var mid := "', '";
    var tail := "');" + rest;
    assert s == head + key + mid + value + tail;
    assert |head| == 8 && |mid| == 4;
    assert (head + key + mid + value)[..8] == head;
    assert (head + key + mid + value)[8..c] == key;
    assert (head + key + mid + value)[c..c + 4] == mid;
    assert (head + key + mid + value)[c + 4..] == value;
  }

  /** A text laid out like a rendered definition matches at its start with the value run
      ending at `f`. */
  lemma MatchAtRendered(s: string, key: string, allowEmpty: bool, f: nat)
    requires 8 + |key| + 3 < f < |s|
    requires s[..6] == "define" && s[6] == '(' && s[7] == '\'' && s[8..8 + |key|] == key
    requires SkipSpaces(s, 6) == 6 && SkipSpaces(s, 7) == 7
    requires s[8 + |key|] == '\'' && SkipSpaces(s, 9 + |key|) == 9 + |key| && s[9 + |key|] == ','
    requires SkipSpaces(s, 10 + |key|) == 11 + |key| && s[11 + |key|] == '\''
    requires SkipValue(s, 12 + |key|) == f && (allowEmpty || f > 12 + |key|)
    ensures MatchAt(s, 0, key, allowEmpty) == Some(s[12 + |key|..f])
  {
    assert LiteralAt(s, 0, "define") && LiteralAt(s, 8, key);
  }

  /** The value run ends at the first quote. */
  lemma {:induction false} SkipValueOver(s: string, i: nat, n: nat)
    requires i + n < |s| && IsQuote(s[i + n])
    requires forall k :: i <= k < i + n ==> !IsQuote(s[k])
    ensures SkipValue(s, i) == i + n
    decreases n
  {
    if n > 0 {
      SkipValueOver(s, i + 1, n - 1);
    }
  }

  /** A file that starts with a definition of the key yields that definition's value, even
      when the key is defined again later. */
  lemma FirstDefinitionWins(key: string, value: string, rest: string)
    requires forall k :: 0 <= k < |value| ==> !IsQuote(value[k])
    requires key == "TABLE_PREFIX" || value != ""
    ensures Pattern(Render(key, value) + rest, key) == Some(value)
  {
    RenderMatches(key, value, rest, key == "TABLE_PREFIX");
    SearchAtStart(Render(key, value) + rest, key, key == "TABLE_PREFIX");
  }

  /** A definition with the empty value does not match at its own position unless the key is
      TABLE_PREFIX. */
  lemma EmptyValueOnlyForPrefix(key: string, rest: string)
    ensures MatchAt(Render(key, "") + rest, 0, key, false).None?
    ensures MatchAt(Render(key, "") + rest, 0, key, true) == Some("")
  {
    RenderMatches(key, "", rest, true);
  }

  // ---------------------------------------------------------------------------
  // settings

  /** The `Settings` fields the database URL and the table names use, and the secret. */
  datatype Settings = Settings(
    databaseHost: string,
    databasePort: int,
    databaseName: string,
    databaseUser: string,
    databasePassword: string,
    tablePrefix: string,
    secretKey: string)

  /** The defaults `Settings` declares. */
  const DefaultSettings: Settings :=
    Settings("localhost", 3306, "osticket", "osticket", "", "ost_", "your-secret-key-here")

  /** `osticket_settings`: the extracted values under the settings' names, SECRET_SALT
      becoming SECRET_KEY, with a fallback for each missing key. */
  function OsticketSettings(config: map<string, string>): (m: map<string, string>)
    ensures m.Keys == {"DATABASE_HOST", "DATABASE_NAME", "DATABASE_USER", "DATABASE_PASSWORD", "TABLE_PREFIX", "SECRET_KEY"}
  {
    map["DATABASE_HOST" := if "DBHOST" in config then config["DBHOST"] else "localhost",
        "DATABASE_NAME" := if "DBNAME" in config then config["DBNAME"] else "osticket",
        "DATABASE_USER" := if "DBUSER" in config then config["DBUSER"] else "osticket",
        "DATABASE_PASSWORD" := if "DBPASS" in config then config["DBPASS"] else "",
        "TABLE_PREFIX" := if "TABLE_PREFIX" in config then config["TABLE_PREFIX"] else "ost_",
        "SECRET_KEY" := if "SECRET_SALT" in config then config["SECRET_SALT"] else "your-secret-key-here"]
  }

  /** Settings with the file's values laid over the declared defaults. */
  function Apply(base: Settings, m: map<string, string>): Settings {
    base.(databaseHost := if "DATABASE_HOST" in m then m["DATABASE_HOST"] else base.databaseHost,
          databaseName := if "DATABASE_NAME" in m then m["DATABASE_NAME"] else base.databaseName,
          databaseUser := if "DATABASE_USER" in m then m["DATABASE_USER"] else base.databaseUser,
          databasePassword := if "DATABASE_PASSWORD" in m then m["DATABASE_PASSWORD"] else base.databasePassword,
          tablePrefix := if "TABLE_PREFIX" in m then m["TABLE_PREFIX"] else base.tablePrefix,
          secretKey := if "SECRET_KEY" in m then m["SECRET_KEY"] else base.secretKey)
  }

  /** The fallbacks are the declared defaults: without a config file the settings are
      exactly the defaults, and each key the file lacks keeps its default. */
  lemma FallbacksAreDeclaredDefaults(config: map<string, string>)
    ensures Apply(DefaultSettings, OsticketSettings(map[])) == DefaultSettings
    ensures var s := Apply(DefaultSettings, OsticketSettings(config));
            && ("DBHOST" !in config ==> s.databaseHost == DefaultSettings.databaseHost)
            && ("DBNAME" !in config ==> s.databaseName == DefaultSettings.databaseName)
            && ("DBUSER" !in config ==> s.databaseUser == DefaultSettings.databaseUser)
            && ("DBPASS" !in config ==> s.databasePassword == DefaultSettings.databasePassword)
            && ("TABLE_PREFIX" !in config ==> s.tablePrefix == DefaultSettings.tablePrefix)
            && ("SECRET_SALT" !in config ==> s.secretKey == DefaultSettings.secretKey)
            && s.databasePort == 3306
  {
  }

  /** The salt osTicket defines becomes the API's secret key. */
  lemma SaltBecomesSecretKey(salt: string, rest: string)
    requires salt != "" && forall k :: 0 <= k < |salt| ==> !IsQuote(salt[k])
    ensures Apply(DefaultSettings, OsticketSettings(Extracted(Render("SECRET_SALT", salt) + rest))).secretKey == salt
  {
    FirstDefinitionWins("SECRET_SALT", salt, rest);
    var m := Extracted(Render("SECRET_SALT", salt) + rest);
    assert "SECRET_SALT" in ConfigKeys;
    assert m["SECRET_SALT"] == salt;
  }

  // ---------------------------------------------------------------------------
  // ALLOWED_HOSTS

  /** `parse_hosts`: a bracketed string that `json.loads` accepts becomes the parsed value;
      any other string, brackets included, is split on ',' with the pieces stripped and the
      empty ones dropped; anything else passes through. `jsonLoads` is None on
      JSONDecodeError. */
  function ParseHosts(v: Value, jsonLoads: string -> Option<Value>): (r: Value)
    ensures !v.VStr? ==> r == v
    ensures v.VStr? && StartsWith(v.s, "[") && EndsWith(v.s, "]") && jsonLoads(v.s).Some? ==> r == jsonLoads(v.s).value
    ensures v.VStr? && !(StartsWith(v.s, "[") && EndsWith(v.s, "]") && jsonLoads(v.s).Some?) ==>
              r == VList(AsValues(NonEmptyStripped(Split(v.s, ','))))
    ensures v.VStr? && !(StartsWith(v.s, "[") && EndsWith(v.s, "]") && jsonLoads(v.s).Some?) ==>
              r.VList? && forall i :: 0 <= i < |r.items| ==>
                r.items[i].VStr? && r.items[i].s != "" && IsStripped(r.items[i].s) && ',' !in r.items[i].s
  {
    if !v.VStr? then v
    else if StartsWith(v.s, "[") && EndsWith(v.s, "]") && jsonLoads(v.s).Some? then jsonLoads(v.s).value
    else
      var hosts := NonEmptyStripped(Split(v.s, ','));
      NoCommaInHosts(v.s);
      VList(AsValues(hosts))
  }

  function AsValues(hosts: seq<string>): seq<Value> {
    seq(|hosts|, i requires 0 <= i < |hosts| => VStr(hosts[i]))
  }

  /** The pieces `parse_hosts` keeps never hold a comma. */
  lemma NoCommaInHosts(s: string)
    ensures forall i :: 0 <= i < |NonEmptyStripped(Split(s, ','))| ==> ',' !in NonEmptyStripped(Split(s, ','))[i]
  {
    var parts := Split(s, ',');
    var hosts := NonEmptyStripped(parts);
    forall i | 0 <= i < |hosts|
      ensures ',' !in hosts[i]
    {
      assert hosts[i] in hosts;
      var j :| 0 <= j < |parts| && Strip(parts[j]) == hosts[i] && hosts[i] != "";
      StripKeepsAbsent(parts[j], ',');
    }
  }

  /** Writing a list of hosts comma-separated and parsing it gives the list back, when each
      host is non-empty, stripped and comma-free and the text is not a JSON array. */
  lemma HostsRoundTrip(hosts: seq<string>, jsonLoads: string -> Option<Value>)
    requires forall i :: 0 <= i < |hosts| ==> hosts[i] != "" && IsStripped(hosts[i]) && ',' !in hosts[i]
    requires jsonLoads(Join(hosts, ",")).None?
    ensures ParseHosts(VStr(Join(hosts, ",")), jsonLoads) == VList(AsValues(hosts))
  {
    if hosts == [] {
      assert Split("", ',') == [""];
    } else {
      SplitJoin(hosts, ',');
    }
    KeepStrippedHosts(hosts);
  }

  /** Hosts that are already non-empty and stripped are kept as they are. */
  lemma {:induction false} KeepStrippedHosts(hosts: seq<string>)
    requires forall i :: 0 <= i < |hosts| ==> hosts[i] != "" && IsStripped(hosts[i])
    ensures NonEmptyStripped(hosts) == hosts
  {
    if hosts != [] {
      KeepStrippedHosts(hosts[1..]);
      StripStripped(hosts[0]);
    }
  }

  // ---------------------------------------------------------------------------
  // database URL

  const UrlScheme: string := "mysql+pymysql://"
  const UrlQuery: string := "charset=utf8mb4"

  /** `DATABASE_URL`. The user and password are not percent-encoded. */
  function DatabaseUrl(s: Settings): string {
    UrlScheme + s.databaseUser + ":" + s.databasePassword + "@" + s.databaseHost + ":" + IntToString(s.databasePort)
    + "/" + s.databaseName + "?" + UrlQuery
  }

  /** The fields of a database URL, read back at the first ':' , '@', ':', '/' and '?'. */
  datatype UrlFields = UrlFields(user: string, password: string, host: string, port: int, name: string)

  function ParseDatabaseUrl(url: string): Option<UrlFields> {
    if !StartsWith(url, UrlScheme) then None else ParseAuthority(url[|UrlScheme|..])
  }

  /** `user:password@host:` and the location after it. */
  function ParseAuthority(r0: string): Option<UrlFields> {
    if ':' !in r0 then None
    else
      var (user, r1) := SplitOnce(r0, ':');
      if '@' !in r1 then None
      else
        var (password, r2) := SplitOnce(r1, '@');
        if ':' !in r2 then None
        else
          var (host, r3) := SplitOnce(r2, ':');
          match ParseLocation(r3)
          case None => None
          case Some((port, name)) => Some(UrlFields(user, password, host, port, name))
  }

  /** `port/name?query`. */
  function ParseLocation(r3: string): Option<(int, string)> {
    if '/' !in r3 then None
    else
      var (port, r4) := SplitOnce(r3, '/');
      if '?' !in r4 then None
      else
        var (name, query) := SplitOnce(r4, '?');
        if query != UrlQuery || ParseInt(port).None? then None
        else Some((ParseInt(port).value, name))
  }

  lemma LocationRoundTrip(port: int, name: string)
    requires '?' !in name
    ensures ParseLocation(IntToString(port) + "/" + name + "?" + UrlQuery) == Some((port, name))
  {
    var digits := IntToString(port);
    assert '/' !in digits by {
      assert forall k :: 0 <= k < |digits| ==> digits[k] == '-' || IsDigit(digits[k]);
    }
    var r4 := name + "?" + UrlQuery;
    assert digits + "/" + name + "?" + UrlQuery == digits + ['/'] + r4;
    SplitOnceGlue(digits, '/', r4);
    assert r4 == name + ['?'] + UrlQuery;
    SplitOnceGlue(name, '?', UrlQuery);
    IntToStringRoundTrip(port);
  }

  lemma AuthorityRoundTrip(user: string, password: string, host: string, tail: string, port: int, name: string)
    requires ':' !in user && '@' !in password && ':' !in host
    requires ParseLocation(tail) == Some((port, name))
    ensures ParseAuthority(user + ":" + password + "@" + host + ":" + tail) == Some(UrlFields(user, password, host, port, name))
  {
    var r2 := host + [':'] + tail;
    var r1 := password + ['@'] + r2;
    assert user + ":" + password + "@" + host + ":" + tail == user + [':'] + r1;
    SplitOnceGlue(user, ':', r1);
    SplitOnceGlue(password, '@', r2);
    SplitOnceGlue(host, ':', tail);
  }

  /** The URL reads back into its settings when no field holds the separator that ends it. */
  lemma DatabaseUrlRoundTrip(s: Settings)
    requires ':' !in s.databaseUser && '@' !in s.databasePassword && ':' !in s.databaseHost && '?' !in s.databaseName
    ensures ParseDatabaseUrl(DatabaseUrl(s))
            == Some(UrlFields(s.databaseUser, s.databasePassword, s.databaseHost, s.databasePort, s.databaseName))
  {
    var tail := IntToString(s.databasePort) + "/" + s.databaseName + "?" + UrlQuery;
    var r0 := s.databaseUser + ":" + s.databasePassword + "@" + s.databaseHost + ":" + tail;
    assert DatabaseUrl(s) == UrlScheme + r0;
    StartsWithPrefix(UrlScheme, r0);
    assert (UrlScheme + r0)[|UrlScheme|..] == r0;
    LocationRoundTrip(s.databasePort, s.databaseName);
    AuthorityRoundTrip(s.databaseUser, s.databasePassword, s.databaseHost, tail, s.databasePort, s.databaseName);
  }

  /** Without percent-encoding, a password holding '@' is indistinguishable from a host
      holding one: two different settings give the same URL. */
  lemma UnquotedPasswordIsAmbiguous(a: Settings, b: Settings)
    requires a.databaseUser == b.databaseUser && a.databasePort == b.databasePort && a.databaseName == b.databaseName
    requires a.databasePassword == "p@h" && a.databaseHost == "db"
    requires b.databasePassword == "p" && b.databaseHost == "h@db"
    ensures a != b && DatabaseUrl(a) == DatabaseUrl(b)
  {
    assert a.databasePassword + "@" + a.databaseHost == b.databasePassword + "@" + b.databaseHost;
  }
}

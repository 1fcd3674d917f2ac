// Tags and their loggers (log/log_refresh.go, log/log_tag.go): how configured tag patterns
// are accepted, and which logger a tag gets.
module TagLoggers {
  import opened Options

  /** A configured logger. Loggers are told apart by their position. */
  datatype LoggerConfig = LoggerConfig(isRoot: bool, tags: seq<string>)

  const WILDCARD := "_*"

  predicate IsSpace(c: char) {
    || '\t' <= c <= '\r' || c == ' ' || c == '\U{85}' || c == '\U{A0}' || c == '\U{1680}'
    || '\U{2000}' <= c <= '\U{200A}' || c == '\U{2028}' || c == '\U{2029}' || c == '\U{202F}'
    || c == '\U{205F}' || c == '\U{3000}'
  }

  /** r is s without some white space at either end. */
  ghost predicate IsTrimmed(s: string, i: int, j: int, r: string) {
    && 0 <= i <= j <= |s| && r == s[i..j]
    && (forall k :: 0 <= k < i || j <= k < |s| ==> IsSpace(s[k]))
  }

  function TrimSpace(s: string): (r: string)
    ensures r != [] ==> !IsSpace(r[0]) && !IsSpace(r[|r| - 1])
    ensures exists i, j :: IsTrimmed(s, i, j, r)
    decreases |s|
  {
    if s == [] then (assert IsTrimmed(s, 0, 0, []); [])
    else if IsSpace(s[0]) then
      var r := TrimSpace(s[1..]);
      assert IsTrimmed(s, 1, |s|, s[1..]);
      TrimmedTwice(s, 1, |s|, r);
      r
    else if IsSpace(s[|s| - 1]) then
      var r := TrimSpace(s[..|s| - 1]);
      assert IsTrimmed(s, 0, |s| - 1, s[..|s| - 1]);
      TrimmedTwice(s, 0, |s| - 1, r);
      r
    else (assert IsTrimmed(s, 0, |s|, s); s)
  }

  lemma SliceOfSlice(s: string, i: int, j: int, k: int, l: int)
    requires 0 <= i <= j <= |s| && 0 <= k <= l <= j - i
    ensures s[i..j][k..l] == s[i + k..i + l]
  {
    forall x | 0 <= x < l - k
      ensures s[i..j][k..l][x] == s[i + k..i + l][x]
    {
      assert s[i..j][k..l][x] == s[i..j][k + x] == s[i + k + x];
    }
  }

  lemma TrimmedTwice(s: string, i: int, j: int, r: string)
    requires 0 <= i <= j <= |s| && IsTrimmed(s, i, j, s[i..j])
    requires exists k, l :: IsTrimmed(s[i..j], k, l, r)
    ensures exists k, l :: IsTrimmed(s, k, l, r)
  {
    var k, l :| IsTrimmed(s[i..j], k, l, r);
    forall x | 0 <= x < i + k || i + l <= x < |s|
      ensures IsSpace(s[x])
    {
      if i <= x < j {
        assert s[i..j][x - i] == s[x];
      }
    }
    SliceOfSlice(s, i, j, k, l);
    assert IsTrimmed(s, i + k, i + l, r);
  }

  predicate HasSuffix(s: string, suffix: string) {
    |suffix| <= |s| && s[|s| - |suffix|..] == suffix
  }

  /** Only a trailing wildcard is allowed. */
  predicate AllowedPattern(tag: string) {
    '*' in tag ==> HasSuffix(tag, WILDCARD)
  }

  /** The tags a logger asks for, blanks removed. */
  function Cleaned(tags: seq<string>): set<string> {
    set t | t in tags && TrimSpace(t) != "" :: TrimSpace(t)
  }

  predicate Acceptable(c: LoggerConfig) {
    c.isRoot || (Cleaned(c.tags) != {} && forall t :: t in Cleaned(c.tags) ==> AllowedPattern(t))
  }

  /** No two loggers but the root ask for the same tag. */
  predicate Disjoint(configs: seq<LoggerConfig>) {
    forall i, j :: 0 <= i < j < |configs| && !configs[i].isRoot && !configs[j].isRoot ==>
                     Cleaned(configs[i].tags) !! Cleaned(configs[j].tags)
  }

  /** The table maps exactly the requested tags, each to the logger that asked for it. */
  predicate Maps(table: map<string, nat>, configs: seq<LoggerConfig>) {
    && (forall t :: t in table ==>
          table[t] < |configs| && !configs[table[t]].isRoot && t in Cleaned(configs[table[t]].tags))
    && (forall i :: 0 <= i < |configs| && !configs[i].isRoot ==>
          forall t :: t in Cleaned(configs[i].tags) ==> t in table && table[t] == i)
  }

  /** One logger's tags: trimmed, blanks skipped, or None if a pattern is not allowed or none is left. */
  method CheckTags(tags: seq<string>) returns (cleaned: Option<seq<string>>)
    ensures cleaned.Some? <==> Acceptable(LoggerConfig(false, tags))
    ensures cleaned.Some? ==> forall t :: t in cleaned.value <==> t in Cleaned(tags)
  {
    var kept: seq<string> := [];
    for k := 0 to |tags|
      invariant forall t :: t in kept <==> t in Cleaned(tags[..k])
      invariant forall t :: t in kept ==> AllowedPattern(t)
    {
      var tag := TrimSpace(tags[k]);
      assert tags[..k + 1] == tags[..k] + [tags[k]];
      CleanedAppend(tags[..k], tags[k]);
      if tag == "" {
        continue;
      }
      if '*' in tag && !HasSuffix(tag, WILDCARD) {
        assert tag in Cleaned(tags);
        return None;
      }
      kept := kept + [tag];
    }
    assert tags[..|tags|] == tags;
    if |kept| == 0 {
      return None;
    }
    assert kept[0] in Cleaned(tags);
    cleaned := Some(kept);
  }

  lemma CleanedAppend(tags: seq<string>, tag: string)
    ensures Cleaned(tags + [tag]) == Cleaned(tags) + (if TrimSpace(tag) == "" then {} else {TrimSpace(tag)})
  {
    hide TrimSpace;
    forall t | t in Cleaned(tags) + (if TrimSpace(tag) == "" then {} else {TrimSpace(tag)})
      ensures t in Cleaned(tags + [tag])
    {
      if t in Cleaned(tags) {
        var raw :| raw in tags && TrimSpace(raw) != "" && TrimSpace(raw) == t;
        assert raw in tags + [tag];
      } else {
        assert tag in tags + [tag];
      }
    }
  }

  lemma RootIsAcceptable(c: LoggerConfig)
    requires c.isRoot
    ensures Acceptable(c)
  {
  }

  lemma RootAddsNothing(table: map<string, nat>, configs: seq<LoggerConfig>, c: LoggerConfig)
    requires Maps(table, configs) && Disjoint(configs) && c.isRoot
    ensures Maps(table, configs + [c]) && Disjoint(configs + [c])
  {
    hide Cleaned;
  }

  lemma TableGrows(table: map<string, nat>, configs: seq<LoggerConfig>, c: LoggerConfig, grown: map<string, nat>)
    requires Maps(table, configs) && Disjoint(configs) && !c.isRoot
    requires forall t :: t in Cleaned(c.tags) ==> t !in table
    requires forall t :: t in grown <==> t in table || t in Cleaned(c.tags)
    requires forall t :: t in grown ==> grown[t] == if t in table then table[t] else |configs|
    ensures Maps(grown, configs + [c]) && Disjoint(configs + [c])
  {
    hide Cleaned;
    var all := configs + [c];
    forall i, j | 0 <= i < j < |all| && !all[i].isRoot && !all[j].isRoot
      ensures Cleaned(all[i].tags) !! Cleaned(all[j].tags)
    {
      if j == |configs| {
        assert forall t :: t in Cleaned(all[i].tags) ==> t in table;
      }
    }
  }

  lemma TagClash(table: map<string, nat>, configs: seq<LoggerConfig>, c: LoggerConfig, tag: string)
    requires Maps(table, configs) && !c.isRoot && tag in table && tag in Cleaned(c.tags)
    ensures !Disjoint(configs + [c])
  {
    hide Cleaned;
    var all := configs + [c];
    assert tag in Cleaned(all[table[tag]].tags) && tag in Cleaned(all[|configs|].tags);
    assert !(Cleaned(all[table[tag]].tags) !! Cleaned(all[|configs|].tags));
  }

  /** Enters one logger's tags; a tag of another logger is a clash, a repeated one is not. */
  method AddTags(table: map<string, nat>, cleaned: seq<string>, logger: nat) returns (grown: Option<map<string, nat>>)
    requires forall t :: t in table ==> table[t] < logger
    ensures grown.Some? <==> forall t :: t in cleaned ==> t !in table
    ensures grown.Some? ==> forall t :: t in grown.value <==> t in table || t in cleaned
    ensures grown.Some? ==> forall t :: t in grown.value ==> grown.value[t] == if t in table then table[t] else logger
  {
    var tags := table;
    for j := 0 to |cleaned|
      invariant forall t :: t in tags <==> t in table || t in cleaned[..j]
      invariant forall t :: t in tags ==> tags[t] == if t in table then table[t] else logger
      invariant forall t :: t in cleaned[..j] ==> t !in table
    {
      var tag := cleaned[j];
      if tag in tags && tags[tag] != logger {
        return None;
      }
      tags := tags[tag := logger];
    }
    assert cleaned[..|cleaned|] == cleaned;
    grown := Some(tags);
  }

  /** One logger's turn. */
  method AddLogger(table: map<string, nat>, ghost done: seq<LoggerConfig>, c: LoggerConfig, logger: nat)
    returns (grown: Option<map<string, nat>>)
    requires Maps(table, done) && Disjoint(done) && logger == |done|
    ensures grown.Some? <==> Acceptable(c) && Disjoint(done + [c])
    ensures grown.Some? ==> Maps(grown.value, done + [c])
  {
    hide Cleaned, AllowedPattern, Maps, Disjoint, Acceptable;
    if c.isRoot {
      RootIsAcceptable(c);
      RootAddsNothing(table, done, c);
      return Some(table);
    }
    assert c == LoggerConfig(false, c.tags);
    var cleaned := CheckTags(c.tags);
    if cleaned == None {
      return None;
    }
    MapsBelow(table, done);
    grown := AddTags(table, cleaned.value, logger);
    if grown == None {
      ghost var tag :| tag in cleaned.value && tag in table;
      TagClash(table, done, c, tag);
    } else {
      TableGrows(table, done, c, grown.value);
    }
  }

  /**
   * The table of configured tags. It is refused exactly if a logger has no tag, asks for a
   * pattern that is not allowed, or asks for a tag another logger has.
   */
  method BuildTags(configs: seq<LoggerConfig>) returns (table: Option<map<string, nat>>)
    ensures table.Some? <==> (forall i :: 0 <= i < |configs| ==> Acceptable(configs[i])) && Disjoint(configs)
    ensures table.Some? ==> Maps(table.value, configs)
  {
    var tags: map<string, nat> := map[];
    assert Maps(tags, configs[..0]) && Disjoint(configs[..0]);
    hide Maps, Disjoint, Acceptable;
    for k := 0 to |configs|
      invariant Maps(tags, configs[..k]) && Disjoint(configs[..k])
      invariant forall i :: 0 <= i < k ==> Acceptable(configs[i])
    {
      assert configs[..k + 1] == configs[..k] + [configs[k]];
      var grown := AddLogger(tags, configs[..k], configs[k], k);
      if grown == None {
        DisjointPrefix(configs, k + 1);
        return None;
      }
      tags := grown.value;
    }
    assert configs[..|configs|] == configs;
    table := Some(tags);
  }

  lemma DisjointPrefix(configs: seq<LoggerConfig>, k: nat)
    requires k <= |configs|
    ensures Disjoint(configs) ==> Disjoint(configs[..k])
  {
    hide Cleaned;
  }

  lemma MapsBelow(table: map<string, nat>, configs: seq<LoggerConfig>)
    requires Maps(table, configs)
    ensures forall t :: t in table ==> table[t] < |configs|
  {
    hide Cleaned;
  }

  // ---- Finding a tag's logger ---------------------------------------------

  function CutWildcard(tag: string): string {
    if HasSuffix(tag, WILDCARD) then tag[..|tag| - 2] else tag
  }

  function LastUnderscore(s: string): (i: int)
    ensures -1 <= i < |s|
    ensures i >= 0 ==> s[i] == '_'
    ensures forall k :: i < k < |s| ==> s[k] != '_'
  {
    if s == [] then -1 else if s[|s| - 1] == '_' then |s| - 1 else LastUnderscore(s[..|s| - 1])
  }

  /** The pattern that covers every tag below the underscore at i. */
  function PatternAt(base: string, i: nat): string
    requires i <= |base|
  {
    base[..i] + WILDCARD
  }

  predicate Configured(table: map<string, nat>, base: string, i: int) {
    0 < i < |base| && base[i] == '_' && PatternAt(base, i) in table
  }

  /** The longest configured pattern above the tag. */
  ghost predicate Longest(table: map<string, nat>, base: string, i: int) {
    Configured(table, base, i) && forall k :: Configured(table, base, k) ==> k <= i
  }

  /**
   * The logger of the tag itself if that is configured, else of the longest configured
   * pattern for one of its underscores but a leading one, else the root.
   */
  ghost predicate IsLoggerOf(table: map<string, nat>, root: nat, tag: string, logger: nat) {
    if tag in table then logger == table[tag]
    else
      || (exists i :: Longest(table, CutWildcard(tag), i) && logger == table[PatternAt(CutWildcard(tag), i)])
      || ((forall i :: !Configured(table, CutWildcard(tag), i)) && logger == root)
  }

  method FindLogger(table: map<string, nat>, root: nat, tag: string) returns (logger: nat)
    ensures IsLoggerOf(table, root, tag, logger)
  {
    ghost var base := CutWildcard(tag);
    ghost var at := |base|;     // patterns at or beyond this position have been looked up
    var current := tag;
    while true
      invariant 0 <= at <= |base| && CutWildcard(current) == base[..at]
      invariant at == |base| ==> current == tag
      invariant at < |base| ==> 0 < at && base[at] == '_' && current == PatternAt(base, at) && tag !in table
      invariant forall i :: at < i ==> !Configured(table, base, i)
      decreases at
    {
      if current in table {
        if at < |base| {
          assert Longest(table, base, at);
        } else {
          assert current == tag;
        }
        return table[current];
      }
      current := CutWildcard(current);
      var i := LastUnderscore(current);
      assert current == base[..at];
      assert forall k :: i < k < at ==> base[k] != '_' by {
        assert forall k :: i < k < at ==> current[k] == base[k];
      }
      if i <= 0 {
        assert forall k :: !Configured(table, base, k);
        return root;
      }
      assert base[i] == current[i] && base[..at][..i] == base[..i];
      current := current[..i] + WILDCARD;
      assert HasSuffix(current, WILDCARD) && current[..|current| - 2] == base[..i];
      at := i;
    }
  }

  // ---- Which patterns can match at all ------------------------------------

  /** The segments between underscores. */
  function Split(s: string): (parts: seq<string>)
    ensures |parts| >= 1
  {
    var i := LastUnderscore(s);
    if i < 0 then [s] else Split(s[..i]) + [s[i + 1..]]
  }

  function JoinParts(parts: seq<string>): string
    requires parts != []
  {
    if |parts| == 1 then parts[0] else JoinParts(parts[..|parts| - 1]) + "_" + parts[|parts| - 1]
  }

  /** The segments hold no underscore and, joined by underscores, give the text back. */
  lemma {:induction false} SplitJoins(s: string)
    ensures JoinParts(Split(s)) == s
    ensures forall k :: 0 <= k < |Split(s)| ==> '_' !in Split(s)[k]
  {
    var i := LastUnderscore(s);
    if i >= 0 {
      SplitJoins(s[..i]);
      assert s == s[..i] + "_" + s[i + 1..];
    }
  }

  predicate TagChars(s: string) {
    forall k :: 0 <= k < |s| ==> 'a' <= s[k] <= 'z' || '0' <= s[k] <= '9' || s[k] == '_'
  }

  function WithoutLeading(s: string): string {
    if s != "" && s[0] == '_' then s[1..] else s
  }

  predicate ValidTag(tag: string) {
    && 3 <= |tag| <= 36
    && TagChars(tag)
    && var parts := Split(WithoutLeading(tag)); |parts| <= 4 && "" !in parts
  }

  function Underscores(s: string): nat {
    if s == "" then 0 else Underscores(s[..|s| - 1]) + if s[|s| - 1] == '_' then 1 else 0
  }

  lemma {:induction false} UnderscoresConcat(a: string, b: string)
    ensures Underscores(a + b) == Underscores(a) + Underscores(b)
  {
    if b == "" {
      assert a + b == a;
    } else {
      UnderscoresConcat(a, b[..|b| - 1]);
      assert (a + b)[..|a + b| - 1] == a + b[..|b| - 1];
    }
  }

  lemma {:induction false} NoUnderscores(s: string)
    ensures Underscores(s) == 0 <==> '_' !in s
  {
    if s != "" {
      NoUnderscores(s[..|s| - 1]);
      assert s == s[..|s| - 1] + [s[|s| - 1]];
    }
  }

  predicate NoDoubleUnderscore(s: string) {
    forall k :: 0 < k < |s| ==> s[k - 1] != '_' || s[k] != '_'
  }

  /** No underscore at either end and no two in a row. */
  predicate WellSpaced(s: string) {
    s != "" && s[0] != '_' && s[|s| - 1] != '_' && NoDoubleUnderscore(s)
  }

  lemma {:induction false} SegmentsCount(s: string)
    ensures |Split(s)| == 1 + Underscores(s)
    ensures "" !in Split(s) <==> WellSpaced(s)
  {
    var i := LastUnderscore(s);
    if i < 0 {
      NoUnderscores(s);
    } else {
      var stem, rest := s[..i], s[i + 1..];
      SegmentsCount(stem);
      NoUnderscores(rest);
      UnderscoresConcat(stem, "_");
      UnderscoresConcat(stem + "_", rest);
      assert s == stem + "_" + rest && Underscores("_") == 1;
      hide Split, Underscores;
      SegmentsOf(Split(stem), [rest]);
      WellSpacedAt(s, i);
    }
  }

  lemma WellSpacedAt(s: string, i: nat)
    requires i < |s| && s[i] == '_' && forall k :: i < k < |s| ==> s[k] != '_'
    ensures WellSpaced(s) <==> WellSpaced(s[..i]) && s[i + 1..] != ""
  {
    if WellSpaced(s[..i]) && s[i + 1..] != "" {
      forall k | 0 < k < |s|
        ensures s[k - 1] != '_' || s[k] != '_'
      {
        if k < i {
          assert s[..i][k - 1] == s[k - 1] && s[..i][k] == s[k];
        }
      }
    }
  }

  lemma LeadingUnderscoreCut(s: string)
    requires |s| >= 2 && s[0] == '_'
    ensures WellSpaced(s[1..]) <==> NoDoubleUnderscore(s) && s[|s| - 1] != '_'
  {
    var rest := s[1..];
    if WellSpaced(rest) {
      forall k | 0 < k < |s|
        ensures s[k - 1] != '_' || s[k] != '_'
      {
        if k > 1 {
          assert rest[k - 2] == s[k - 1] && rest[k - 1] == s[k];
        }
      }
    }
    if NoDoubleUnderscore(s) {
      forall k | 0 < k < |rest|
        ensures rest[k - 1] != '_' || rest[k] != '_'
      {
        assert rest[k] == s[k + 1] && rest[k - 1] == s[k + 1 - 1];
      }
    }
  }

  /**
   * A valid tag without a word about segments: 3 to 36 of the allowed characters, at most three
   * underscores beyond the first character, none at the end and no two in a row.
   */
  lemma ValidTagIff(tag: string)
    ensures ValidTag(tag) <==>
              && 3 <= |tag| <= 36 && TagChars(tag)
              && Underscores(tag[1..]) <= 3 && tag[|tag| - 1] != '_' && NoDoubleUnderscore(tag)
  {
    if 3 <= |tag| {
      SegmentsCount(WithoutLeading(tag));
      UnderscoresConcat([tag[0]], tag[1..]);
      assert [tag[0]] + tag[1..] == tag && Underscores([tag[0]]) == if tag[0] == '_' then 1 else 0;
      hide Split, Underscores;
      if tag[0] == '_' {
        LeadingUnderscoreCut(tag);
        hide WellSpaced, NoDoubleUnderscore;
      }
    }
  }

  /** The table entries a tag's logger can depend on. */
  predicate Relevant(tag: string, pattern: string) {
    pattern == tag || exists i :: 0 < i < |tag| && tag[i] == '_' && pattern == PatternAt(tag, i)
  }

  /** A valid tag has no wildcard to cut off. */
  lemma ValidTagIsItsOwnBase(tag: string)
    requires ValidTag(tag)
    ensures CutWildcard(tag) == tag
  {
    if HasSuffix(tag, WILDCARD) {
      assert false;
    }
  }

  /** Tables that agree on the entries relevant to a valid tag give it the same logger. */
  lemma OnlyRelevantEntriesMatter(table: map<string, nat>, table': map<string, nat>, root: nat, tag: string,
                                  logger: nat, logger': nat)
    requires ValidTag(tag) && IsLoggerOf(table, root, tag, logger) && IsLoggerOf(table', root, tag, logger')
    requires forall p :: Relevant(tag, p) ==> (p in table <==> p in table') && (p in table ==> table[p] == table'[p])
    ensures logger == logger'
  {
    ValidTagIsItsOwnBase(tag);
    hide ValidTag, CutWildcard;
    assert Relevant(tag, tag);
    forall i
      ensures Configured(table, tag, i) <==> Configured(table', tag, i)
      ensures Configured(table, tag, i) ==> table[PatternAt(tag, i)] == table'[PatternAt(tag, i)]
    {
      if 0 < i < |tag| && tag[i] == '_' {
        assert Relevant(tag, PatternAt(tag, i));
      }
    }
    hide Relevant, Configured, PatternAt;
    if tag !in table && exists i :: Configured(table, tag, i) {
      var i :| Longest(table, tag, i) && logger == table[PatternAt(tag, i)];
      assert Longest(table', tag, i);
    }
  }

  lemma SplitAt(s: string, i: nat)
    requires i < |s| && s[i] == '_' && forall k :: i < k < |s| ==> s[k] != '_'
    ensures Split(s) == Split(s[..i]) + [s[i + 1..]]
  {
    assert LastUnderscore(s) == i;
  }

  lemma SplitWhole(s: string)
    requires '_' !in s
    ensures Split(s) == [s]
  {
    assert LastUnderscore(s) == -1;
  }

  lemma JoinedAt(a: string, b: string, j: nat)
    requires j <= |b|
    ensures (a + "_" + b)[|a|] == '_'
    ensures forall k :: |a| < k < |a + "_" + b| ==> (a + "_" + b)[k] == b[k - |a| - 1]
    ensures (a + "_" + b)[..|a|] == a && (a + "_" + b)[|a| + 1..] == b
    ensures (a + "_" + b)[..|a| + 1 + j] == a + "_" + b[..j]
  {
  }

  lemma {:induction false} SplitAtUnderscore(a: string, b: string)
    ensures Split(a + "_" + b) == Split(a) + Split(b)
    decreases |b|
  {
    hide Split, LastUnderscore;
    var j := LastUnderscore(b);
    JoinedAt(a, b, if j < 0 then 0 else j);
    if j < 0 {
      SplitAt(a + "_" + b, |a|);
      SplitWhole(b);
    } else {
      SplitAt(a + "_" + b, |a| + 1 + j);
      SplitAt(b, j);
      JoinedAt(a + "_" + b[..j], b[j + 1..], 0);
      assert b == b[..j] + "_" + b[j + 1..];
      assert a + "_" + b == (a + "_" + b[..j]) + "_" + b[j + 1..];
      SplitAtUnderscore(a, b[..j]);
    }
  }

  /** The stems whose pattern has a tag to cover: room for one more segment in length and in number. */
  predicate LiveStem(stem: string) {
    && 1 <= |stem| <= 34 && TagChars(stem)
    && var parts := Split(WithoutLeading(stem)); |parts| <= 3 && "" !in parts
  }

  /** Some valid tag's logger can depend on the pattern. */
  ghost predicate Alive(pattern: string) {
    exists tag :: ValidTag(tag) && Relevant(tag, pattern)
  }

  /** Segments of a tag are those of its stem and those of the rest. */
  lemma TagSegments(stem: string, rest: string)
    requires stem != ""
    ensures var tag := stem + "_" + rest;
            Split(WithoutLeading(tag)) == Split(WithoutLeading(stem)) + Split(rest)
  {
    var tag := stem + "_" + rest;
    assert WithoutLeading(tag) == WithoutLeading(stem) + "_" + rest;
    SplitAtUnderscore(WithoutLeading(stem), rest);
  }

  lemma ValidTagHasLiveStems(tag: string, i: nat)
    requires ValidTag(tag) && 0 < i < |tag| && tag[i] == '_'
    ensures LiveStem(tag[..i])
  {
    hide Split;
    var stem, rest := tag[..i], tag[i + 1..];
    assert tag == stem + "_" + rest;
    TagSegments(stem, rest);
    SplitWhole("");
    SegmentsOf(Split(WithoutLeading(stem)), Split(rest));
  }

  lemma SegmentsOf(a: seq<string>, b: seq<string>)
    ensures "" in a + b <==> "" in a || "" in b
  {
  }

  lemma {:induction false} LiveStemHasATag(stem: string)
    requires LiveStem(stem)
    ensures ValidTag(stem + "_a") && Relevant(stem + "_a", stem + WILDCARD)
  {
    hide Split;
    var tag := stem + "_" + "a";
    assert tag == stem + "_a";
    TagSegments(stem, "a");
    SplitWhole("a");
    SegmentsOf(Split(WithoutLeading(stem)), ["a"]);
    assert PatternAt(tag, |stem|) == stem + WILDCARD;
  }

  /**
   * Exactly which accepted patterns can match anything: a pattern without a wildcard that is
   * a valid tag, and a wildcard whose stem leaves room for one more segment. The others, such
   * as "_*", "A_*" or a stem of four segments, are accepted and match nothing.
   */
  lemma AliveIff(pattern: string)
    requires AllowedPattern(pattern)
    ensures Alive(pattern) <==> if '*' in pattern then LiveStem(pattern[..|pattern| - 2]) else ValidTag(pattern)
  {
    hide Split, LiveStem;
    if '*' in pattern {
      var stem := pattern[..|pattern| - 2];
      assert pattern == stem + WILDCARD;
      if LiveStem(stem) {
        LiveStemHasATag(stem);
      }
      forall tag | ValidTag(tag) && Relevant(tag, pattern)
        ensures LiveStem(stem)
      {
        ValidTagHasNoStar(tag);
        var i: nat :| 0 < i < |tag| && tag[i] == '_' && pattern == PatternAt(tag, i);
        assert stem == tag[..i];
        ValidTagHasLiveStems(tag, i);
      }
    } else {
      forall tag, i: nat | i <= |tag|
        ensures PatternAt(tag, i) != pattern
      {
        assert PatternAt(tag, i)[i + 1] == '*';
      }
      assert ValidTag(pattern) ==> Relevant(pattern, pattern);
    }
  }

  lemma ValidTagHasNoStar(tag: string)
    requires ValidTag(tag)
    ensures '*' !in tag
  {
  }

  /** A dead pattern can be left out: no valid tag's logger changes. */
  lemma DeadPatternsChangeNothing(table: map<string, nat>, root: nat, pattern: string, tag: string, logger: nat, logger': nat)
    requires !Alive(pattern) && ValidTag(tag)
    requires IsLoggerOf(table, root, tag, logger) && IsLoggerOf(table - {pattern}, root, tag, logger')
    ensures logger == logger'
  {
    assert !Relevant(tag, pattern);
    OnlyRelevantEntriesMatter(table, table - {pattern}, root, tag, logger, logger');
  }
}

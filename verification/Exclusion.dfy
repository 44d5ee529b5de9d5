/** The rule language of `internal/sync/exclusion.go`: which vault paths are synchronised, and which
    directories are walked. */
module Exclusion {
  import opened Options
  import opened Paths

  /** `SyncExcludeFolders`, `SyncExcludeExtensions`, `SyncExcludeWhitelist`. */
  datatype Rules = Rules(folders: seq<string>, extensions: seq<string>, whitelist: seq<string>)

  const OBSIDIAN: string := ".obsidian"
  const PLUGIN: string := OBSIDIAN + "/" + "plugins" + "/" + "fast-note-sync"
  const SENSITIVE: string := PLUGIN + "/" + "data.json"

  function NormalizeRule(rule: string): string { TrimSlashes(Slashed(rule)) }

  predicate LiteralPathPrefix(rel: string, rule: string) {
    rule != "" && (rel == rule || HasPrefix(rel, rule + "/"))
  }

  predicate FolderRuleMatches(rel: string, rawRule: string) {
    var rule := NormalizeRule(rawRule);
    if LiteralPathPrefix(rel, rule) then true
    else if rule == "" || Contains(rule, "/") then false
    else rule in Split(rel)
  }

  predicate JunkPart(part: string) {
    var lower := ToLower(part);
    || HasPrefix(part, "._") || lower == ".ds_store"
    || HasSuffix(lower, ".tmp") || Contains(lower, ".tmp.")
    || (HasPrefix(part, ".") && Contains(lower, ".tmp-"))
  }

  predicate IsFilesystemJunkPath(rel: string) {
    exists part | part in Split(Slashed(rel)) :: JunkPart(part)
  }

  predicate HasHiddenComponent(rel: string) {
    var parts := Split(rel);
    exists i | 0 <= i < |parts| :: HasPrefix(parts[i], ".") && (i != 0 || parts[i] != OBSIDIAN)
  }

  predicate IsSensitivePluginConfigPath(rel: string) { NormalizeSyncPath(rel) == Some(SENSITIVE) }

  predicate IsWhitelisted(rules: Rules, rel: string) {
    exists rule | rule in rules.whitelist :: LiteralPathPrefix(rel, NormalizeRule(rule))
  }

  predicate IsFolderPathExcluded(rules: Rules, raw: string) {
    match NormalizeSyncPath(raw)
    case None => true
    case Some(rel) =>
      if IsFilesystemJunkPath(rel) || IsSensitivePluginConfigPath(rel) then true
      else if IsWhitelisted(rules, rel) then false
      else if HasHiddenComponent(rel) then true
      else exists rule | rule in rules.folders :: FolderRuleMatches(rel, rule)
  }

  predicate ExtensionRuleMatches(rel: string, rule: string) {
    var lower := ToLower(rule);
    ToLower(Ext(rel)) == "." + (if HasPrefix(lower, ".") then lower[1..] else lower)
  }

  predicate IsVaultFileExcluded(rules: Rules, raw: string) {
    match NormalizeSyncPath(raw)
    case None => true
    case Some(rel) =>
      if IsFilesystemJunkPath(rel) || IsSensitivePluginConfigPath(rel) then true
      else if IsWhitelisted(rules, rel) then false
      else if HasHiddenComponent(rel) then true
      else if Dir(rel) != "." && IsFolderPathExcluded(rules, Dir(rel)) then true
      else if exists rule | rule in rules.folders :: LiteralPathPrefix(rel, NormalizeRule(rule)) then true
      else exists rule | rule in rules.extensions :: ExtensionRuleMatches(rel, rule)
  }

  predicate ShouldTraverseVaultDir(rules: Rules, rel: string) {
    if IsFilesystemJunkPath(rel) || IsSensitivePluginConfigPath(rel) then false
    else if !IsFolderPathExcluded(rules, rel) then true
    else exists rule | rule in rules.whitelist :: LiteralPathPrefix(NormalizeRule(rule), rel)
  }

  // ----- What a literal rule means ------------------------------------------------------------

  lemma {:induction false} JoinConcat(a: seq<string>, b: seq<string>)
    requires a != [] && b != []
    ensures Join(a + b) == Join(a) + "/" + Join(b)
  {
    if |a| > 1 {
      assert (a + b)[1..] == a[1..] + b;
      JoinConcat(a[1..], b);
    } else {
      assert (a + b)[1..] == b;
    }
  }

  /** Literal rules respect component boundaries: a rule covers exactly the paths whose component
      sequence starts with its own. */
  lemma LiteralPrefixIsComponentPrefix(rel: string, rule: string)
    requires rule != ""
    ensures LiteralPathPrefix(rel, rule) <==> Split(rule) <= Split(rel)
  {
    if LiteralPathPrefix(rel, rule) && rel != rule {
      AncestorParts(rule, rel);
    }
    if Split(rule) <= Split(rel) {
      JoinSplit(rel);
      JoinSplit(rule);
      var rest := Split(rel)[|Split(rule)|..];
      assert Split(rel) == Split(rule) + rest;
      if rest == [] {
        assert Split(rel) == Split(rule);
      } else {
        JoinConcat(Split(rule), rest);
      }
    }
  }

  // ----- What excludes a path, in terms of its components ------------------------------------------

  function Parents(rel: string): seq<string> { Split(rel)[..|Split(rel)| - 1] }

  /** The components of the rule are the first ones of the path. */
  predicate StartsWithRule(rel: string, rawRule: string) {
    NormalizeRule(rawRule) != "" && Split(NormalizeRule(rawRule)) <= Split(rel)
  }

  /** The rule is a single name, and one of these. */
  predicate NamesOne(parts: seq<string>, rawRule: string) {
    NormalizeRule(rawRule) != "" && Split(NormalizeRule(rawRule)) == [NormalizeRule(rawRule)]
    && NormalizeRule(rawRule) in parts
  }

  /** What is contained brings its characters. */
  lemma ContainsHas(s: string, sub: string, c: char)
    requires c in sub
    ensures Contains(s, sub) || HasSuffix(s, sub) ==> c in s
  {
    var k :| 0 <= k < |sub| && sub[k] == c;
    forall i: nat | i <= |s| && OccursAt(s, sub, i) ensures c in s {
      assert s[i..i + |sub|][k] == s[i + k];
    }
    if HasSuffix(s, sub) {
      assert s[|s| - |sub|..][k] == s[|s| - |sub| + k];
    }
  }

  lemma {:induction false} SingleName(rule: string)
    ensures Contains(rule, "/") <==> '/' in rule
    ensures '/' in rule <==> Split(rule) != [rule]
  {
    if '/' in rule {
      var i: nat :| i < |rule| && rule[i] == '/';
      assert OccursAt(rule, "/", i);
      assert rule == rule[..i] + "/" + rule[i + 1..];
      SplitConcat(rule[..i], rule[i + 1..]);
      assert |Split(rule)| >= 2;
    } else {
      SplitOne(rule);
      ContainsHas(rule, "/", '/');
    }
  }

  lemma FolderRuleExactly(rel: string, rule: string)
    ensures FolderRuleMatches(rel, rule) <==> StartsWithRule(rel, rule) || NamesOne(Split(rel), rule)
  {
    var w := NormalizeRule(rule);
    hide NormalizeRule, Contains, LiteralPathPrefix, Split;
    SingleName(w);
    if w == "" {
      EmptyRule(rel);
    } else {
      LiteralPrefixIsComponentPrefix(rel, w);
    }
  }

  lemma EmptyRule(rel: string)
    ensures !LiteralPathPrefix(rel, "")
  {
  }

  lemma WhitelistExactly(rules: Rules, rel: string)
    ensures IsWhitelisted(rules, rel) <==> exists rule | rule in rules.whitelist :: StartsWithRule(rel, rule)
  {
    forall rule | rule in rules.whitelist
      ensures LiteralPathPrefix(rel, NormalizeRule(rule)) <==> StartsWithRule(rel, rule)
    {
      PrefixExactly(rel, rule);
    }
  }

  lemma PrefixExactly(rel: string, rule: string)
    ensures LiteralPathPrefix(rel, NormalizeRule(rule)) <==> StartsWithRule(rel, rule)
  {
    if NormalizeRule(rule) != "" {
      LiteralPrefixIsComponentPrefix(rel, NormalizeRule(rule));
    }
  }

  /** A folder outside the settings directory is excluded exactly if it is junk, or not whitelisted and hidden,
      or not whitelisted and a folder rule has its first components or names one of its components. */
  lemma FolderExcludedExactly(rules: Rules, rel: string)
    requires Normal(rel) && Outside(rel)
    ensures IsFolderPathExcluded(rules, rel) <==>
      || IsFilesystemJunkPath(rel)
      || (&& !(exists rule | rule in rules.whitelist :: StartsWithRule(rel, rule))
          && (|| HasHiddenComponent(rel)
              || exists rule | rule in rules.folders :: StartsWithRule(rel, rule) || NamesOne(Split(rel), rule)))
  {
    SensitiveOutside(rel);
    WhitelistExactly(rules, rel);
    hide NormalizeSyncPath, IsFilesystemJunkPath, HasHiddenComponent, FolderRuleMatches, StartsWithRule, NamesOne,
      IsWhitelisted, Split, IsSensitivePluginConfigPath;
    forall rule | rule in rules.folders
      ensures FolderRuleMatches(rel, rule) <==> StartsWithRule(rel, rule) || NamesOne(Split(rel), rule)
    {
      FolderRuleExactly(rel, rule);
    }
  }

  lemma SensitiveOutside(rel: string)
    requires Normal(rel) && Outside(rel)
    ensures !IsSensitivePluginConfigPath(rel)
  {
    if rel == SENSITIVE {
      SensitiveInside(rel, rel);
    }
  }

  /** Splitting off the last component. */
  lemma ParentParts(rel: string)
    requires ProperPath(rel)
    ensures '/' !in rel ==> Dir(rel) == "." && Parents(rel) == []
    ensures '/' in rel ==> Ancestor(Dir(rel), rel) && Dir(rel) != "." && Split(Dir(rel)) == Parents(rel)
  {
    if '/' !in rel {
      SplitOne(rel);
      NoSlash(rel);
    } else {
      var n := DirLength(rel);
      SlashBefore(rel);
      var parent := rel[..n - 1];
      assert Ancestor(parent, rel);
      DirOfProper(rel, parent);
      assert Dir(rel) == parent by { DirEnds(rel, parent); }
      AncestorParts(parent, rel);
      SplitOne(rel[n..]);
    }
  }

  lemma {:induction false} SlashBefore(p: string)
    requires '/' in p
    ensures DirLength(p) > 0
  {
    if p[|p| - 1] != '/' {
      assert '/' in p[..|p| - 1];
      SlashBefore(p[..|p| - 1]);
    }
  }

  lemma {:induction false} NoSlash(p: string)
    requires '/' !in p
    ensures DirLength(p) == 0 && Dir(p) == "."
  {
    if p != "" {
      NoSlash(p[..|p| - 1]);
    }
    assert p[..0] == "" && Split("") == [""] && [""][1..] == [];
  }

  lemma DirEnds(rel: string, parent: string)
    requires ProperPath(rel) && Ancestor(parent, rel) && |parent| == DirLength(rel) - 1
    ensures Dir(rel) == parent
  {
    assert rel[..DirLength(rel)] == parent + "/";
    ProperAncestor(parent, rel);
    ProperClean(parent);
  }

  /** A file is excluded by the same conditions, except that a single name must be one of the directories
      above it, and by an extension rule. */
  lemma FileExcludedExactly(rules: Rules, rel: string)
    requires Normal(rel) && Outside(rel) && (Dir(rel) == "." || Normal(Dir(rel)))
    ensures IsVaultFileExcluded(rules, rel) <==>
      || IsFilesystemJunkPath(rel)
      || (&& !(exists rule | rule in rules.whitelist :: StartsWithRule(rel, rule))
          && (|| HasHiddenComponent(rel)
              || (exists rule | rule in rules.folders :: StartsWithRule(rel, rule) || NamesOne(Parents(rel), rule))
              || exists rule | rule in rules.extensions :: ExtensionRuleMatches(rel, rule)))
  {
    hide NormalizeSyncPath, IsFilesystemJunkPath, HasHiddenComponent, StartsWithRule, NamesOne, LiteralPathPrefix,
      IsWhitelisted, Split, IsSensitivePluginConfigPath, ExtensionRuleMatches, Dir, NormalizeRule, ProperPath,
      IsFolderPathExcluded, Outside, Ancestor, Parents, Slashed;
    NormalProper(rel);
    ParentParts(rel);
    SensitiveOutside(rel);
    WhitelistExactly(rules, rel);
    OwnRules(rules, rel);
    if IsFilesystemJunkPath(rel) || IsWhitelisted(rules, rel) || HasHiddenComponent(rel) {
    } else if Dir(rel) != "." {
      ParentExcluded(rules, rel, Dir(rel));
    } else {
      TopLevel(rel);
      NothingAbove(rel);
    }
  }

  lemma TopLevel(rel: string)
    requires ProperPath(rel) && Dir(rel) == "."
    ensures Parents(rel) == []
  {
    ParentParts(rel);
  }

  lemma OwnRules(rules: Rules, rel: string)
    ensures (exists rule | rule in rules.folders :: LiteralPathPrefix(rel, NormalizeRule(rule))) <==>
            exists rule | rule in rules.folders :: StartsWithRule(rel, rule)
  {
    hide LiteralPathPrefix, NormalizeRule, StartsWithRule;
    forall rule | rule in rules.folders
      ensures LiteralPathPrefix(rel, NormalizeRule(rule)) <==> StartsWithRule(rel, rule)
    {
      PrefixExactly(rel, rule);
    }
  }

  lemma NothingAbove(rel: string)
    requires Parents(rel) == []
    ensures forall rule :: !NamesOne(Parents(rel), rule)
  {
  }

  /** What the parent adds to the conditions on the file itself. */
  lemma ParentExcluded(rules: Rules, rel: string, dir: string)
    requires Normal(rel) && Outside(rel) && Normal(dir) && Ancestor(dir, rel) && Split(dir) == Parents(rel)
    requires !IsFilesystemJunkPath(rel) && !IsWhitelisted(rules, rel) && !HasHiddenComponent(rel)
    ensures IsFolderPathExcluded(rules, dir) <==>
      exists rule | rule in rules.folders :: StartsWithRule(dir, rule) || NamesOne(Parents(rel), rule)
    ensures forall rule | StartsWithRule(dir, rule) :: StartsWithRule(rel, rule)
  {
    OutsideAncestor(dir, rel);
    FolderExcludedExactly(rules, dir);
    NotHardExcluded(dir, rel);
    WhitelistExactly(rules, rel);
    if HasHiddenComponent(dir) {
      HiddenBelow(dir, rel);
    }
    forall rule | StartsWithRule(dir, rule) ensures StartsWithRule(rel, rule) {
      assert Split(dir) <= Split(rel);
    }
  }

  /** Slashes at the end of a rule, and the direction of its slashes, make no difference. */
  lemma RuleSpelling(rule: string)
    ensures NormalizeRule(rule + "/") == NormalizeRule(rule) == NormalizeRule(Slashed(rule))
    ensures !HasSuffix(NormalizeRule(rule), "/") && '\\' !in NormalizeRule(rule)
  {
    assert Slashed(rule + "/") == Slashed(rule) + "/";
    assert (Slashed(rule) + "/")[..|Slashed(rule)|] == Slashed(rule);
    assert Slashed(Slashed(rule)) == Slashed(rule);
    Untrailed(Slashed(rule));
  }

  lemma {:induction false} Untrailed(s: string)
    ensures var t := TrimSlashes(s); t <= s && (t == "" || t[|t| - 1] != '/')
  {
    if s != "" && s[|s| - 1] == '/' {
      Untrailed(s[..|s| - 1]);
    }
  }

  /** The file with the client's own credentials is never synchronised, whatever is whitelisted. */
  lemma SensitiveNever(rules: Rules)
    ensures IsVaultFileExcluded(rules, SENSITIVE) && IsFolderPathExcluded(rules, SENSITIVE)
    ensures !ShouldTraverseVaultDir(rules, SENSITIVE)
  {
    hide IsFilesystemJunkPath, HasHiddenComponent, IsWhitelisted, Dir, NormalizeSyncPath;
    SensitiveNormal();
  }

  lemma SensitiveNormal()
    ensures Normal(SENSITIVE)
  {
    hide Normal;
    PlainNames();
    PlainJoin(OBSIDIAN, "plugins");
    PlainJoin(OBSIDIAN + "/" + "plugins", "fast-note-sync");
    PlainJoin(PLUGIN, "data.json");
    PlainNormal(SENSITIVE);
  }

  predicate Lettered(part: string) {
    |part| > 2 && forall i | 0 <= i < |part| :: 'a' <= part[i] <= 'z' || part[i] == '.' || part[i] == '-'
  }

  lemma LetteredPlain(part: string)
    requires Lettered(part)
    ensures PlainPart(part) && '/' !in part
  {
    LetterNoSpace(part[0]);
    LetterNoSpace(part[|part| - 1]);
    hide IsSpace;
  }

  lemma LetterNoSpace(c: char)
    requires 'a' <= c <= 'z' || c == '.' || c == '-'
    ensures !IsSpace(c)
  {
  }

  lemma PlainNames()
    ensures PlainPath(OBSIDIAN) && PlainPart("plugins") && PlainPart("fast-note-sync") && PlainPart("data.json")
  {
    hide PlainPart;
    assert Lettered(OBSIDIAN) && Lettered("plugins") && Lettered("fast-note-sync") && Lettered("data.json");
    LetteredPlain(OBSIDIAN);
    LetteredPlain("plugins");
    LetteredPlain("fast-note-sync");
    LetteredPlain("data.json");
    SplitOne(OBSIDIAN);
  }

  lemma PlainJoin(dir: string, name: string)
    requires PlainPath(dir) && PlainPart(name)
    ensures PlainPath(dir + "/" + name)
  {
    SplitOne(name);
    SplitConcat(dir, name);
  }

  /** Outside the settings directory, hidden means that a component starts with a dot. */
  lemma HiddenExactly(rel: string)
    requires Outside(rel)
    ensures HasHiddenComponent(rel) <==> exists part | part in Split(rel) :: part != "" && part[0] == '.'
  {
    var parts := Split(rel);
    NotObsidian(rel);
    hide Outside, Split;
    if HasHiddenComponent(rel) {
      var i :| 0 <= i < |parts| && HasPrefix(parts[i], ".");
      assert parts[i] in parts && parts[i][0] == '.';
    }
    if part :| part in parts && part != "" && part[0] == '.' {
      var i :| 0 <= i < |parts| && parts[i] == part;
      assert HasPrefix(parts[i], ".");
    }
  }

  lemma NotObsidian(rel: string)
    requires Outside(rel)
    ensures Split(rel)[0] != OBSIDIAN
  {
    SplitOne(OBSIDIAN);
    LiteralPrefixIsComponentPrefix(rel, OBSIDIAN);
  }

  // ----- Extensions and junk -------------------------------------------------------------------------

  /** The same letters, up to ASCII case. */
  predicate EqualFold(a: string, b: string) {
    |a| == |b| && forall i | 0 <= i < |a| ::
      || a[i] == b[i]
      || ('A' <= a[i] <= 'Z' && b[i] as int == a[i] as int + 32)
      || ('A' <= b[i] <= 'Z' && a[i] as int == b[i] as int + 32)
  }

  lemma LowerFolds(a: string, b: string)
    ensures ToLower(a) == ToLower(b) <==> EqualFold(a, b)
  {
    if ToLower(a) == ToLower(b) {
      forall i | 0 <= i < |a| ensures LowerChar(a[i]) == LowerChar(b[i]) {
        assert ToLower(a)[i] == ToLower(b)[i];
      }
    }
  }

  lemma {:induction false} ExtOf(stem: string, ext: string)
    requires '.' !in ext && '/' !in ext
    ensures Ext(stem + "." + ext) == "." + ext
  {
    var p, n := stem + "." + ext, |ext| - 1;
    if ext == "" {
      assert p[|p| - 1] == '.';
    } else {
      ExtOf(stem, ext[..n]);
      assert p[..|p| - 1] == stem + "." + ext[..n] && p[|p| - 1] == ext[n];
      assert "." + ext == "." + ext[..n] + [ext[n]];
    }
  }

  lemma {:induction false} NoExt(dir: string, name: string)
    requires '.' !in name && '/' !in name && (dir == "" || dir[|dir| - 1] == '/')
    ensures Ext(dir + name) == ""
  {
    var p, n := dir + name, |name| - 1;
    if name == "" {
      assert p == dir;
    } else {
      NoExt(dir, name[..n]);
      assert p[..|p| - 1] == dir + name[..n] && p[|p| - 1] == name[n];
    }
  }

  /** An extension rule, with or without its dot, matches exactly the files whose name ends with a dot and the
      same letters. */
  lemma ExtensionRuleExactly(stem: string, ext: string, rule: string)
    requires '.' !in ext && '/' !in ext
    ensures ExtensionRuleMatches(stem + "." + ext, rule) <==>
            EqualFold(ext, if HasPrefix(rule, ".") then rule[1..] else rule)
  {
    var bare := if HasPrefix(rule, ".") then rule[1..] else rule;
    ExtOf(stem, ext);
    LowerFolds(ext, bare);
    assert ToLower("." + ext) == "." + ToLower(ext);
    assert rule != "" ==> (LowerChar(rule[0]) == '.' <==> rule[0] == '.');
    assert HasPrefix(rule, ".") <==> rule != "" && rule[0] == '.';
    assert HasPrefix(ToLower(rule), ".") <==> HasPrefix(rule, ".");
    assert HasPrefix(rule, ".") ==> ToLower(rule)[1..] == ToLower(bare);
    assert ("." + ToLower(ext))[1..] == ToLower(ext) && ("." + ToLower(bare))[1..] == ToLower(bare);
  }

  lemma NoExtensionNoRule(dir: string, name: string, rule: string)
    requires '.' !in name && '/' !in name && (dir == "" || dir[|dir| - 1] == '/')
    ensures !ExtensionRuleMatches(dir + name, rule)
  {
    NoExt(dir, name);
  }

  lemma LowerConcat(a: string, b: string)
    ensures ToLower(a + b) == ToLower(a) + ToLower(b)
  {
  }

  /** Names of temporary files are junk, in any case of the letters; the names that the client's own atomic
      writes stage under are among them. */
  lemma JunkNames(base: string, tail: string, tmp: string)
    requires EqualFold(tmp, ".tmp")
    ensures JunkPart("._" + base) && JunkPart(base + tmp) && JunkPart(base + tmp + "." + tail)
    ensures JunkPart("." + base + tmp + "-" + tail)
  {
    LowerFolds(tmp, ".tmp");
    assert ToLower(".tmp") == ".tmp";
    LowerConcat(base, tmp);
    LowerConcat(base + tmp, "." + tail);
    LowerConcat("." + base + tmp, "-" + tail);
    LowerConcat("." + base, tmp);
    var a, b := base + tmp + "." + tail, "." + base + tmp + "-" + tail;
    assert a == base + tmp + ("." + tail) && b == "." + base + tmp + ("-" + tail);
    assert ToLower("." + tail)[0] == '.' && ToLower("-" + tail)[0] == '-';
    assert OccursAt(ToLower(a), ".tmp.", |base|);
    assert OccursAt(ToLower(b), ".tmp-", |base| + 1);
  }

  lemma FinderJunk(name: string)
    requires EqualFold(name, ".ds_store")
    ensures JunkPart(name)
  {
    LowerFolds(name, ".ds_store");
    assert ToLower(".ds_store") == ".ds_store";
  }

  /** Nothing without a dot is junk or hidden. */
  lemma DotlessPart(part: string)
    requires '.' !in part
    ensures !JunkPart(part) && !HasPrefix(part, ".")
  {
    var lower := ToLower(part);
    assert forall i | 0 <= i < |part| :: lower[i] == LowerChar(part[i]) && part[i] != '.';
    assert part != "" ==> part[0] != '.';
    assert "._"[0] == '.' && "."[0] == '.' && ".ds_store"[0] == '.' && '.' in ".tmp" && '.' in ".tmp.";
    ContainsHas(lower, ".tmp", '.');
    ContainsHas(lower, ".tmp.", '.');
  }

  // ----- Exclusion is inherited downwards ----------------------------------------------------

  lemma HiddenBelow(dir: string, rel: string)
    requires Ancestor(dir, rel) && HasHiddenComponent(dir)
    ensures HasHiddenComponent(rel)
  {
    AncestorParts(dir, rel);
    var parts := Split(dir);
    var i :| 0 <= i < |parts| && HasPrefix(parts[i], ".") && (i != 0 || parts[i] != OBSIDIAN);
    assert Split(rel)[i] == parts[i];
  }

  lemma JunkBelow(dir: string, rel: string)
    requires Ancestor(dir, rel) && IsFilesystemJunkPath(dir)
    ensures IsFilesystemJunkPath(rel)
  {
    assert Slashed(rel)[..|dir|] == Slashed(dir);
    AncestorParts(Slashed(dir), Slashed(rel));
  }

  lemma RuleBelow(dir: string, rel: string, rule: string)
    requires Ancestor(dir, rel) && FolderRuleMatches(dir, rule)
    ensures FolderRuleMatches(rel, rule)
  {
    AncestorParts(dir, rel);
  }

  /** A whitelisted path keeps each of its ancestors traversable: the rule is above the ancestor,
      which is then whitelisted too, or below it. */
  lemma WhitelistKeepsAncestors(rules: Rules, dir: string, rel: string)
    requires Ancestor(dir, rel) && dir != "" && IsWhitelisted(rules, rel)
    ensures IsWhitelisted(rules, dir)
         || exists rule | rule in rules.whitelist :: LiteralPathPrefix(NormalizeRule(rule), dir)
  {
    var rule :| rule in rules.whitelist && LiteralPathPrefix(rel, NormalizeRule(rule));
    var w := NormalizeRule(rule);
    if |w| <= |dir| {
      assert rel[..|w|] == w && dir[..|w|] == w;
      assert |w| < |dir| ==> dir[|w|] == rel[|w|] == (w + "/")[|w|];
      assert LiteralPathPrefix(dir, w);
    } else {
      assert w == rel[..|w|] && w[..|dir|] == dir && w[|dir|] == '/';
      assert LiteralPathPrefix(w, dir);
    }
  }

  predicate Outside(rel: string) { !LiteralPathPrefix(rel, OBSIDIAN) }

  lemma SensitiveInside(dir: string, rel: string)
    requires dir == SENSITIVE && (rel == dir || Ancestor(dir, rel))
    ensures !Outside(rel)
  {
    assert (OBSIDIAN + "/") <= dir;
  }

  /** The part of traversal that does not depend on eligibility. */
  lemma NotHardExcluded(dir: string, rel: string)
    requires Outside(rel) && Ancestor(dir, rel) && !IsFilesystemJunkPath(rel)
    ensures !IsFilesystemJunkPath(dir) && (Normal(dir) ==> !IsSensitivePluginConfigPath(dir))
  {
    if IsFilesystemJunkPath(dir) {
      JunkBelow(dir, rel);
    }
    if dir == SENSITIVE {
      SensitiveInside(dir, rel);
    }
  }

  // ----- Eligible implies reachable -------------------------------------------------------------

  lemma EligibleFolderReachable(rules: Rules, rel: string, dir: string)
    requires Normal(rel) && Normal(dir) && Outside(rel) && Ancestor(dir, rel)
    requires !IsFolderPathExcluded(rules, rel)
    ensures ShouldTraverseVaultDir(rules, dir)
  {
    NotHardExcluded(dir, rel);
    NormalProper(dir);
    if IsWhitelisted(rules, rel) {
      WhitelistKeepsAncestors(rules, dir, rel);
    } else if IsFolderPathExcluded(rules, dir) {
      if HasHiddenComponent(dir) {
        HiddenBelow(dir, rel);
      } else {
        var rule :| rule in rules.folders && FolderRuleMatches(dir, rule);
        RuleBelow(dir, rel, rule);
      }
    }
  }

  lemma DirOfProper(rel: string, dir: string)
    requires ProperPath(rel) && Ancestor(dir, rel)
    ensures var parent := Dir(rel);
            parent != "." && Ancestor(parent, rel) && (dir == parent || Ancestor(dir, parent))
  {
    var n := DirLength(rel);
    assert n > |dir| by { assert rel[|dir|] == '/'; }
    var parent := rel[..n - 1];
    assert Ancestor(parent, rel) && rel[..n] == parent + "/";
    ProperAncestor(parent, rel);
    ProperClean(parent);
    assert Dir(rel) == parent;
    SplitOne(".");
    assert parent != "." by { assert !ProperPart("."); }
    if n - 1 != |dir| {
      assert parent[..|dir|] == dir;
    }
  }

  /** A file that is not excluded can be reached: the walk enters every directory above it, also
      through excluded or hidden ancestors of a whitelisted path. */
  lemma EligibleReachable(rules: Rules, rel: string, dir: string)
    requires Normal(rel) && Normal(Dir(rel)) && Normal(dir) && Outside(rel) && Ancestor(dir, rel)
    requires !IsVaultFileExcluded(rules, rel)
    ensures ShouldTraverseVaultDir(rules, dir)
  {
    NotHardExcluded(dir, rel);
    NormalProper(dir);
    NormalProper(rel);
    if IsWhitelisted(rules, rel) {
      WhitelistKeepsAncestors(rules, dir, rel);
    } else {
      DirOfProper(rel, dir);
      var parent := Dir(rel);
      NotHardExcluded(parent, rel);
      assert !IsFolderPathExcluded(rules, parent);
      if dir != parent {
        OutsideAncestor(parent, rel);
        EligibleFolderReachable(rules, parent, dir);
      }
    }
  }

  lemma OutsideAncestor(dir: string, rel: string)
    requires Ancestor(dir, rel) && Outside(rel)
    ensures Outside(dir)
  {
  }

  // ----- Directories that are not normal --------------------------------------------------------

  /** A directory whose name ends with white space is looked up under its trimmed name, the files below it
      are not. With the trimmed name as a folder rule it is never entered, and an ordinary file below it
      is eligible nevertheless, unless the rule matches a component further down. */
  lemma GapUnreachable(name: string, gap: string, rel: string)
    requires Normal(name) && gap != "" && Blank(gap) && Ancestor(name + gap, rel)
    requires Normal(rel) && Normal(Dir(rel)) && Outside(rel)
    requires !IsFilesystemJunkPath(rel) && !HasHiddenComponent(rel)
    ensures var rules := Rules([name], [], []);
      && !ShouldTraverseVaultDir(rules, name + gap)
      && (!IsVaultFileExcluded(rules, rel) <==> '/' in name || name !in Split(Dir(rel)))
  {
    var dir, parent := name + gap, Dir(rel);
    NormalProper(rel);
    DirOfProper(rel, dir);
    hide IsFilesystemJunkPath, HasHiddenComponent, IsVaultFileExcluded, ShouldTraverseVaultDir, Split,
      FolderRuleMatches, Dir;
    GapLost(name, gap);
    assert parent != dir;
    RuledDir(name, dir);
    GapNoPrefix(name, gap, rel);
    GapNoPrefix(name, gap, parent);
    NotHardExcluded(parent, rel);
    OneRule(name, rel);
  }

  lemma RuledDir(name: string, dir: string)
    requires Normal(name) && NormalizeSyncPath(dir) == Some(name)
    ensures !ShouldTraverseVaultDir(Rules([name], [], []), dir)
  {
    var rules := Rules([name], [], []);
    RuleNormal(name);
    hide NormalizeSyncPath, FolderRuleMatches, IsFilesystemJunkPath, HasHiddenComponent;
    assert name in rules.folders;
  }

  /** With one folder rule that is not the start of the path, all depends on the parent's components. */
  lemma OneRule(name: string, rel: string)
    requires Normal(name) && Normal(rel) && Normal(Dir(rel)) && Dir(rel) != "." && Outside(rel)
    requires Ancestor(Dir(rel), rel) && !LiteralPathPrefix(rel, name) && !LiteralPathPrefix(Dir(rel), name)
    requires !IsFilesystemJunkPath(rel) && !HasHiddenComponent(rel) && !IsFilesystemJunkPath(Dir(rel))
    requires !IsSensitivePluginConfigPath(Dir(rel))
    ensures !IsVaultFileExcluded(Rules([name], [], []), rel) <==> '/' in name || name !in Split(Dir(rel))
  {
    var rules, parent := Rules([name], [], []), Dir(rel);
    RuleNormal(name);
    NormalProper(name);
    RuleInside(name, parent);
    if HasHiddenComponent(parent) {
      HiddenBelow(parent, rel);
    }
    assert !IsSensitivePluginConfigPath(rel) by { if rel == SENSITIVE { SensitiveInside(rel, rel); } }
    hide NormalizeSyncPath, IsFilesystemJunkPath, HasHiddenComponent, Dir, Split, FolderRuleMatches, LiteralPathPrefix,
      NormalizeRule, Outside, Slashed, ProperPath, Ancestor, IsSensitivePluginConfigPath;
    assert rules.folders[0] == name && forall rule :: rule in rules.folders <==> rule == name;
  }

  lemma RuleNormal(name: string)
    requires Normal(name)
    ensures NormalizeRule(name) == name && FolderRuleMatches(name, name)
  {
    NormalProper(name);
    SplitEnds(name);
    assert ProperPart(Split(name)[|Split(name)| - 1]);
  }

  lemma GapNoPrefix(name: string, gap: string, rel: string)
    requires gap != "" && Blank(gap) && Ancestor(name + gap, rel)
    ensures !LiteralPathPrefix(rel, name)
  {
    assert gap[0] in gap && !IsSpace('/');
    assert rel[..|name + gap|][|name|] == gap[0];
  }

  /** A rule that is not the start of a path can only match one of its components. */
  lemma RuleInside(name: string, p: string)
    requires name != "" && NormalizeRule(name) == name && !LiteralPathPrefix(p, name)
    ensures FolderRuleMatches(p, name) <==> '/' !in name && name in Split(p)
  {
    if '/' in name {
      var i :| 0 <= i < |name| && name[i] == '/';
      assert OccursAt(name, "/", i);
    }
    if Contains(name, "/") {
      var i :| 0 <= i <= |name| && OccursAt(name, "/", i);
      assert name[i] == '/';
    }
  }

  /** An instance: with the folder rule `x`, the file `x /y/f` is eligible and out of reach. */
  lemma SpaceUnreachable()
    ensures var rules, rel := Rules(["x"], [], []), "x /y/f";
      Ancestor("x ", rel) && !IsVaultFileExcluded(rules, rel) && !ShouldTraverseVaultDir(rules, "x ")
  {
    hide NormalizeSyncPath, IsFilesystemJunkPath, HasHiddenComponent, Dir, TrimSpace, Split;
    SpacedParts();
    SpacedNormal();
    SpacedDir();
    assert "x" + " " == "x " && "x /y/f"[..2] == "x " && "x /y/f"[2] == '/';
    assert IsSpace(' ') && Outside("x /y/f");
    GapUnreachable("x", " ", "x /y/f");
  }

  lemma SpacedParts()
    ensures Split("x /y/f") == ["x ", "y", "f"] && Split("x /y") == ["x ", "y"] && Split("x") == ["x"]
  {
    SplitOne("x");
    SplitOne("x ");
    SplitOne("y");
    SplitOne("f");
    SplitConcat("x ", "y");
    SplitConcat("x /y", "f");
    assert "x " + "/" + "y" == "x /y" && "x /y" + "/" + "f" == "x /y/f";
    assert ["x "] + ["y"] + ["f"] == ["x ", "y", "f"];
  }

  lemma InnocentParts(p: string)
    requires Slashed(p) == p && forall part | part in Split(p) :: '.' !in part
    ensures !IsFilesystemJunkPath(p) && !HasHiddenComponent(p)
  {
    forall part | part in Split(p) ensures !JunkPart(part) && !HasPrefix(part, ".") {
      DotlessPart(part);
    }
  }

  lemma InnocentNormal(p: string)
    requires p != "" && '\\' !in p && !IsSpace(p[0]) && !IsSpace(p[|p| - 1]) && p[0] != '/'
    requires forall part | part in Split(p) :: '.' !in part && ProperPart(part)
    ensures Normal(p) && !IsFilesystemJunkPath(p) && !HasHiddenComponent(p)
  {
    SpacedEdges(p);
    hide ProperPart, TrimSpace, IsFilesystemJunkPath, HasHiddenComponent;
    InnocentParts(p);
    assert ProperPath(p);
    ProperNormal(p);
  }

  lemma SpacedEdges(p: string)
    requires p != "" && '\\' !in p && !IsSpace(p[0]) && !IsSpace(p[|p| - 1])
    ensures Slashed(p) == p && TrimSpace(p) == p
  {
  }

  lemma SpacedNormal()
    ensures Normal("x /y/f") && !IsFilesystemJunkPath("x /y/f") && !HasHiddenComponent("x /y/f")
    ensures Normal("x /y") && Normal("x")
  {
    hide Normal, IsFilesystemJunkPath, HasHiddenComponent, Split;
    SpacedParts();
    InnocentNormal("x /y/f");
    InnocentNormal("x /y");
    InnocentNormal("x");
  }

  lemma SpacedDir()
    ensures Dir("x /y/f") == "x /y"
  {
    SpacedParts();
    assert "x /y/f"[..5] == "x /y/" && DirLength("x /y/") == 5;
    assert DirLength("x /y/f") == 5;
    SplitOne("");
    SplitConcat("x /y", "");
    assert "x /y" + "/" + "" == "x /y/";
    CleanTrailing(["x ", "y"], []);
    assert [] + ["x ", "y"] == ["x ", "y"] && ["x ", "y"] + [""] == Split("x /y") + [""];
    JoinSplit("x /y");
  }
}

/** Glob patterns over tool ids and the permission decisions built on them. */
module Permission {
  import Picking
  import opened Options

  // ---- what a pattern means -------------------------------------------------------------------------------------

  function Stars(pattern: string): nat {
    if pattern == "" then 0 else (if pattern[0] == '*' then 1 else 0) + Stars(pattern[1..])
  }

  /** The text a pattern spells when its stars are replaced, in order, by the given substrings. */
  function Spell(pattern: string, fills: seq<string>): string
    requires |fills| == Stars(pattern)
  {
    if pattern == "" then ""
    else if pattern[0] == '*' then fills[0] + Spell(pattern[1..], fills[1..])
    else [pattern[0]] + Spell(pattern[1..], fills)
  }

  ghost predicate Matches(pattern: string, id: string) {
    exists fills :: |fills| == Stars(pattern) && Spell(pattern, fills) == id
  }

  // ---- the pieces between the stars -----------------------------------------------------------------------------

  /** `pattern.split("*")`. */
  function Split(pattern: string): (parts: seq<string>)
    ensures |parts| == Stars(pattern) + 1
  {
    if pattern == "" then [""]
    else
      var rest := Split(pattern[1..]);
      if pattern[0] == '*' then [""] + rest else [[pattern[0]] + rest[0]] + rest[1..]
  }

  /** `id` is a gap, a part, a gap, a part, and so on, ending with the last part. */
  ghost predicate Gapped(parts: seq<string>, id: string)
    decreases |parts|
  {
    if parts == [] then id == ""
    else exists gap: string, rest: string :: id == gap + parts[0] + rest && Gapped(parts[1..], rest)
  }

  lemma FirstGap(parts: seq<string>, id: string) returns (gap: string, rest: string)
    requires parts != [] && Gapped(parts, id)
    ensures id == gap + parts[0] + rest && Gapped(parts[1..], rest)
  {
    gap, rest :| id == gap + parts[0] + rest && Gapped(parts[1..], rest);
  }

  /** The first part starts the text, and gaps and parts fill the rest. */
  ghost predicate Laid(parts: seq<string>, id: string) {
    parts != [] && parts[0] <= id && Gapped(parts[1..], id[|parts[0]|..])
  }

  lemma LaidStar(rest: seq<string>, gap: string, tail: string, parts: seq<string>, id: string)
    requires Laid(rest, tail) && parts == [""] + rest && id == gap + tail
    ensures Laid(parts, id)
  {
    assert parts[1..] == rest && id[0..] == id;
    assert id == gap + rest[0] + tail[|rest[0]|..];
  }

  lemma LaidChar(rest: seq<string>, c: char, tail: string, parts: seq<string>, id: string)
    requires Laid(rest, tail) && parts == [[c] + rest[0]] + rest[1..] && id == [c] + tail
    ensures Laid(parts, id)
  {
    assert parts[1..] == rest[1..];
    assert id[|rest[0]| + 1..] == tail[|rest[0]|..];
  }

  /** Filling the gaps after the first part is spelling the pattern. */
  lemma {:induction false} SpellIsGapped(pattern: string, fills: seq<string>)
    requires |fills| == Stars(pattern)
    ensures Laid(Split(pattern), Spell(pattern, fills))
    decreases |pattern|
  {
    if pattern == "" {
      assert Split(pattern)[1..] == [];
    } else if pattern[0] == '*' {
      SpellIsGapped(pattern[1..], fills[1..]);
      LaidStar(Split(pattern[1..]), fills[0], Spell(pattern[1..], fills[1..]), Split(pattern), Spell(pattern, fills));
    } else {
      SpellIsGapped(pattern[1..], fills);
      LaidChar(Split(pattern[1..]), pattern[0], Spell(pattern[1..], fills), Split(pattern), Spell(pattern, fills));
    }
  }

  lemma SpellStar(pattern: string, gap: string, fills: seq<string>)
    requires pattern != "" && pattern[0] == '*' && |fills| == Stars(pattern[1..])
    ensures |[gap] + fills| == Stars(pattern)
    ensures Spell(pattern, [gap] + fills) == gap + Spell(pattern[1..], fills)
  {
    assert ([gap] + fills)[1..] == fills;
  }

  lemma StarLaid(rest: seq<string>, parts: seq<string>, id: string) returns (gap: string, tail: string)
    requires rest != [] && parts == [""] + rest && Laid(parts, id)
    ensures Laid(rest, tail) && id == gap + tail
  {
    assert parts[1..] == rest && id[0..] == id;
    var more;
    gap, more := FirstGap(rest, id);
    tail := rest[0] + more;
    assert tail[|rest[0]|..] == more;
  }

  lemma CharLaid(rest: seq<string>, c: char, parts: seq<string>, id: string)
    requires rest != [] && parts == [[c] + rest[0]] + rest[1..] && Laid(parts, id)
    ensures id != "" && id[0] == c && Laid(rest, id[1..])
  {
    assert parts[1..] == rest[1..] && parts[0][0] == c && parts[0][1..] == rest[0];
    assert id[1..][|rest[0]|..] == id[|rest[0]| + 1..];
  }

  lemma {:induction false} GappedIsSpelled(pattern: string, id: string) returns (fills: seq<string>)
    requires Laid(Split(pattern), id)
    ensures |fills| == Stars(pattern) && Spell(pattern, fills) == id
    decreases |pattern|
  {
    if pattern == "" {
      fills := [];
    } else if pattern[0] == '*' {
      var gap, tail := StarLaid(Split(pattern[1..]), Split(pattern), id);
      var inner := GappedIsSpelled(pattern[1..], tail);
      fills := [gap] + inner;
      SpellStar(pattern, gap, inner);
    } else {
      CharLaid(Split(pattern[1..]), pattern[0], Split(pattern), id);
      fills := GappedIsSpelled(pattern[1..], id[1..]);
      assert id == [id[0]] + id[1..];
    }
  }

  lemma MatchesIsGapped(pattern: string, id: string)
    ensures Matches(pattern, id)
       <==> Split(pattern)[0] <= id && Gapped(Split(pattern)[1..], id[|Split(pattern)[0]|..])
  {
    if fills :| |fills| == Stars(pattern) && Spell(pattern, fills) == id {
      SpellIsGapped(pattern, fills);
    }
    if Split(pattern)[0] <= id && Gapped(Split(pattern)[1..], id[|Split(pattern)[0]|..]) {
      var fills := GappedIsSpelled(pattern, id);
    }
  }

  // ---- the greedy scan ------------------------------------------------------------------------------------------

  predicate OccursAt(id: string, part: string, i: nat) {
    i + |part| <= |id| && id[i..i + |part|] == part
  }

  /** `id.indexOf(part, pos)`. */
  method IndexOf(id: string, part: string, pos: nat) returns (idx: int)
    requires pos <= |id|
    ensures idx == -1 || pos <= idx <= |id|
    ensures idx == -1 ==> forall i: nat :: pos <= i ==> !OccursAt(id, part, i)
    ensures idx != -1 ==> OccursAt(id, part, idx) && forall i: nat :: pos <= i < idx ==> !OccursAt(id, part, i)
  {
    var k := pos;
    while k + |part| <= |id|
      invariant pos <= k <= |id| + 1
      invariant forall i: nat :: pos <= i < k ==> !OccursAt(id, part, i)
    {
      if id[k..k + |part|] == part { return k; }
      k := k + 1;
    }
    return -1;
  }

  /** A first gap can always be made longer. */
  lemma GapAbsorbs(parts: seq<string>, extra: string, id: string)
    requires parts != [] && Gapped(parts, id)
    ensures Gapped(parts, extra + id)
  {
    var gap, rest := FirstGap(parts, id);
    assert extra + id == (extra + gap) + parts[0] + rest;
  }

  /** The first part stands right after the first gap. */
  lemma GapOccurs(parts: seq<string>, id: string, pos: nat) returns (at: nat)
    requires parts != [] && pos <= |id| && Gapped(parts, id[pos..])
    ensures pos <= at && OccursAt(id, parts[0], at) && Gapped(parts[1..], id[at + |parts[0]|..])
  {
    var s, part := id[pos..], parts[0];
    var gap, rest := FirstGap(parts, s);
    at := pos + |gap|;
    assert id[at..at + |part|] == s[|gap|..|gap| + |part|] == part;
    assert rest == s[|gap| + |part|..] == id[at + |part|..];
  }

  /** Taking the leftmost occurrence of a middle part loses no match. */
  lemma LeftmostSuffices(parts: seq<string>, id: string, pos: nat, idx: nat)
    requires |parts| >= 2 && pos <= idx && OccursAt(id, parts[0], idx)
    requires forall i: nat :: pos <= i < idx ==> !OccursAt(id, parts[0], i)
    ensures Gapped(parts, id[pos..]) <==> Gapped(parts[1..], id[idx + |parts[0]|..])
  {
    var s, part := id[pos..], parts[0];
    if Gapped(parts, s) {
      var at := GapOccurs(parts, id, pos);
      var extra, rest := id[idx + |part|..at + |part|], id[at + |part|..];
      assert id[idx + |part|..] == extra + rest;
      GapAbsorbs(parts[1..], extra, rest);
    }
    if Gapped(parts[1..], id[idx + |part|..]) {
      assert s == id[pos..idx] + part + id[idx + |part|..];
    }
  }

  lemma NoOccurrence(parts: seq<string>, id: string, pos: nat)
    requires parts != [] && pos <= |id|
    requires forall i: nat :: pos <= i ==> !OccursAt(id, parts[0], i)
    ensures !Gapped(parts, id[pos..])
  {
    if Gapped(parts, id[pos..]) {
      var at := GapOccurs(parts, id, pos);
    }
  }

  predicate EndsWith(id: string, part: string) {
    |part| <= |id| && id[|id| - |part|..] == part
  }

  /** The last part is anchored at the end and must not overlap what was consumed. */
  lemma LastPart(part: string, id: string, pos: nat)
    requires pos <= |id|
    ensures Gapped([part], id[pos..]) <==> EndsWith(id, part) && |id| - |part| >= pos
  {
    var s := id[pos..];
    assert [part][1..] == [];
    if Gapped([part], s) {
      var gap, rest := FirstGap([part], s);
      assert s == gap + part;
      assert id[|id| - |part|..] == s[|gap|..];
    }
    if EndsWith(id, part) && |id| - |part| >= pos {
      assert s == id[pos..|id| - |part|] + part + "";
      assert Gapped([part][1..], "");
    }
  }

  lemma {:induction false} NoStar(pattern: string)
    ensures '*' !in pattern <==> Stars(pattern) == 0
    ensures Stars(pattern) == 0 ==> Split(pattern) == [pattern]
  {
    if pattern != "" {
      NoStar(pattern[1..]);
      assert [pattern[0]] + pattern[1..] == pattern;
    }
  }

  /** What is left to match when the scan has consumed `pos` characters and `i` parts. */
  ghost predicate Left(parts: seq<string>, i: nat, id: string, pos: nat)
    requires i <= |parts| && pos <= |id|
  {
    Gapped(parts[i..], id[pos..])
  }

  lemma LeftAfterLast(parts: seq<string>, i: nat, id: string, pos: nat)
    requires i + 1 == |parts| && pos <= |id|
    ensures Left(parts, i, id, pos) <==> EndsWith(id, parts[i]) && |id| - |parts[i]| >= pos
  {
    assert parts[i..] == [parts[i]];
    LastPart(parts[i], id, pos);
  }

  lemma LeftAfterMiddle(parts: seq<string>, i: nat, id: string, pos: nat, idx: nat)
    requires i + 1 < |parts| && pos <= idx && OccursAt(id, parts[i], idx)
    requires forall k: nat :: pos <= k < idx ==> !OccursAt(id, parts[i], k)
    ensures Left(parts, i, id, pos) <==> Left(parts, i + 1, id, idx + |parts[i]|)
  {
    assert parts[i..][1..] == parts[i + 1..] && parts[i..][0] == parts[i];
    LeftmostSuffices(parts[i..], id, pos, idx);
  }

  lemma NothingLeft(parts: seq<string>, i: nat, id: string, pos: nat)
    requires i < |parts| && pos <= |id| && forall k: nat :: pos <= k ==> !OccursAt(id, parts[i], k)
    ensures !Left(parts, i, id, pos)
  {
    assert parts[i..][0] == parts[i];
    NoOccurrence(parts[i..], id, pos);
  }

  lemma StarFree(pattern: string, id: string)
    requires '*' !in pattern
    ensures Matches(pattern, id) <==> pattern == id
  {
    NoStar(pattern);
    MatchesIsGapped(pattern, id);
    assert Split(pattern)[1..] == [];
  }

  /** `globMatch`: the scan with anchored ends decides exactly whether the pattern can spell the id. */
  method GlobMatch(pattern: string, id: string) returns (matched: bool)
    ensures matched <==> Matches(pattern, id)
  {
    if '*' !in pattern {
      StarFree(pattern, id);
      return pattern == id;
    }
    NoStar(pattern);
    MatchesIsGapped(pattern, id);
    var parts := Split(pattern);
    var pos: nat := 0;
    ghost var goal := Matches(pattern, id);
    for i := 0 to |parts|
      invariant i == 0 ==> pos == 0
      invariant 0 <= pos <= |id|
      invariant 0 < i < |parts| ==> (goal <==> Left(parts, i, id, pos))
      invariant i == |parts| ==> goal
    {
      var part := parts[i];
      if i == 0 {
        if !(part <= id) { return false; }
        pos := |part|;
      } else if i == |parts| - 1 {
        LeftAfterLast(parts, i, id, pos);
        if !EndsWith(id, part) { return false; }
        if |id| - |part| < pos { return false; }
      } else {
        var idx := IndexOf(id, part, pos);
        if idx == -1 { NothingLeft(parts, i, id, pos); return false; }
        LeftAfterMiddle(parts, i, id, pos, idx);
        pos := idx + |part|;
      }
    }
    return true;
  }

  // ---- permission decisions -------------------------------------------------------------------------------------

  datatype Decision = Allow | Deny | Ask

  datatype SideEffect = ReadOnly | Idempotent | Destructive

  datatype Mode = Plan | AskMode | Bypass | AcceptEdits

  datatype Tool = Tool(id: string, sideEffect: SideEffect)

  datatype Policy = Policy(
    deny: seq<string>, allow: seq<string>, ask: seq<string>, mode: Option<Mode>, default: Option<Decision>)

  datatype DenyEntry = DenyEntry(nameGlob: string, argGlob: Option<string>)

  /** Index of the first `(`, or the length when there is none. */
  function ParenAt(entry: string): (k: nat)
    ensures k <= |entry| && (k < |entry| ==> entry[k] == '(') && forall j :: 0 <= j < k ==> entry[j] != '('
  {
    if entry == "" || entry[0] == '(' then 0 else 1 + ParenAt(entry[1..])
  }

  function ParseDenyEntry(entry: string): DenyEntry {
    var paren := ParenAt(entry);
    if paren == |entry| then DenyEntry(entry, None)
    else
      var end := if entry[|entry| - 1] == ')' then |entry| - 1 else |entry|;
      DenyEntry(entry[..paren], Some(entry[paren + 1..end]))
  }

  ghost predicate BareDenies(deny: seq<string>, id: string) {
    exists k :: 0 <= k < |deny|
      && ParseDenyEntry(deny[k]).argGlob.None? && Matches(ParseDenyEntry(deny[k]).nameGlob, id)
  }

  ghost predicate AnyMatches(globs: seq<string>, id: string) {
    exists k :: 0 <= k < |globs| && Matches(globs[k], id)
  }

  /** `evaluatePermission`; no policy means a bare registry. */
  ghost function EvaluatePermission(policy: Option<Policy>, tool: Tool): Decision {
    if policy.None? then Allow
    else
      var p := policy.value;
      if BareDenies(p.deny, tool.id) then Deny
      else if p.mode == Some(Plan) && !tool.sideEffect.ReadOnly? then Deny
      else if AnyMatches(p.allow, tool.id) then Allow
      else if AnyMatches(p.ask, tool.id) then Ask
      else if p.mode == Some(AskMode) then Ask
      else if p.mode == Some(Bypass) || p.mode == Some(AcceptEdits) then Allow
      else p.default.GetOr(if tool.sideEffect.ReadOnly? then Allow else Ask)
  }

  ghost function FilterTools(tools: seq<Tool>, policy: Option<Policy>): seq<Tool> {
    if tools == [] then []
    else if EvaluatePermission(policy, tools[0]).Deny? then FilterTools(tools[1..], policy)
    else [tools[0]] + FilterTools(tools[1..], policy)
  }

  /** `argScopedDenies`: an empty argument glob denies every argument. */
  method ArgScopedDenies(deny: seq<string>, id: string, input: string) returns (denied: bool)
    ensures denied <==> exists k :: 0 <= k < |deny| && ArgDenies(deny[k], id, input)
  {
    for k := 0 to |deny|
      invariant forall j :: 0 <= j < k ==> !ArgDenies(deny[j], id, input)
    {
      var e := ParseDenyEntry(deny[k]);
      if e.argGlob.Some? {
        var nameMatches := GlobMatch(e.nameGlob, id);
        if nameMatches {
          StarMatchesAll(input);
          var argMatches := GlobMatch(if e.argGlob.value == "" then "*" else e.argGlob.value, input);
          if argMatches { return true; }
        }
      }
    }
    return false;
  }

  ghost predicate ArgDenies(entry: string, id: string, input: string) {
    var e := ParseDenyEntry(entry);
    e.argGlob.Some? && Matches(e.nameGlob, id) && (e.argGlob.value == "" || Matches(e.argGlob.value, input))
  }

  method BareNameDenies(deny: seq<string>, id: string) returns (denied: bool)
    ensures denied <==> BareDenies(deny, id)
  {
    for k := 0 to |deny|
      invariant forall j :: 0 <= j < k ==>
        !(ParseDenyEntry(deny[j]).argGlob.None? && Matches(ParseDenyEntry(deny[j]).nameGlob, id))
    {
      var e := ParseDenyEntry(deny[k]);
      if e.argGlob.None? {
        var matches := GlobMatch(e.nameGlob, id);
        if matches { return true; }
      }
    }
    return false;
  }

  method AnyGlobMatches(globs: seq<string>, id: string) returns (matched: bool)
    ensures matched <==> AnyMatches(globs, id)
  {
    for k := 0 to |globs|
      invariant forall j :: 0 <= j < k ==> !Matches(globs[j], id)
    {
      matched := GlobMatch(globs[k], id);
      if matched { return; }
    }
    return false;
  }

  /** The decision, computed with the scan. */
  method Evaluate(policy: Option<Policy>, tool: Tool) returns (decision: Decision)
    ensures decision == EvaluatePermission(policy, tool)
  {
    if policy.None? { return Allow; }
    var p := policy.value;
    var denied := BareNameDenies(p.deny, tool.id);
    if denied { return Deny; }
    if p.mode == Some(Plan) && !tool.sideEffect.ReadOnly? { return Deny; }
    var allowed := AnyGlobMatches(p.allow, tool.id);
    if allowed { return Allow; }
    var asked := AnyGlobMatches(p.ask, tool.id);
    if asked { return Ask; }
    if p.mode == Some(AskMode) { return Ask; }
    if p.mode == Some(Bypass) || p.mode == Some(AcceptEdits) { return Allow; }
    return p.default.GetOr(if tool.sideEffect.ReadOnly? then Allow else Ask);
  }

  /** A lone star matches every text, so an empty argument glob denies every input. */
  lemma StarMatchesAll(id: string)
    ensures Matches("*", id)
  {
    var fills := [id];
    assert "*"[1..] == "" && fills[1..] == [] && id + "" == id;
    assert Stars("*") == 1 + Stars("");
    assert Spell("*", fills) == id;
  }

  /** An entry denies by name or by argument, never both: it has a parenthesis or it has none. */
  lemma ParsedEntry(entry: string)
    ensures ParseDenyEntry(entry).argGlob.None? <==> '(' !in entry
    ensures '(' !in ParseDenyEntry(entry).nameGlob
  {
    var k := ParenAt(entry);
    if k < |entry| { assert entry[k] in entry; }
  }

  lemma ParenFound(name: string, rest: string)
    requires '(' !in name
    ensures ParenAt(name + rest) == |name| + ParenAt(rest)
    decreases |name|
  {
    if name == "" {
      assert name + rest == rest;
    } else {
      assert (name + rest)[1..] == name[1..] + rest && (name + rest)[0] == name[0];
      ParenFound(name[1..], rest);
    }
  }

  lemma ScopedEntry(name: string, rest: string, entry: string)
    requires '(' !in name && entry == name + "(" + rest
    ensures ParenAt(entry) == |name| < |entry| && entry[..|name|] == name && entry[|name| + 1..] == rest
  {
    var tail := "(" + rest;
    assert entry == name + tail && ParenAt(tail) == 0;
    ParenFound(name, tail);
    assert entry[|name|..][1..] == rest;
  }

  lemma ClosedEntry(name: string, arg: string, entry: string)
    requires '(' !in name && entry == name + "(" + arg + ")"
    ensures ParseDenyEntry(entry) == DenyEntry(name, Some(arg))
  {
    ScopedEntry(name, arg + ")", entry);
    assert entry[|name| + 1..|entry| - 1] == (arg + ")")[..|arg|];
  }

  lemma OpenEntry(name: string, arg: string, entry: string)
    requires '(' !in name && entry == name + "(" + arg && (arg == "" || arg[|arg| - 1] != ')')
    ensures ParseDenyEntry(entry) == DenyEntry(name, Some(arg))
  {
    ScopedEntry(name, arg, entry);
    assert entry[|name| + 1..|entry|] == arg;
  }

  /** An entry is a name, or a name with an argument in parentheses; the last one may be missing. */
  lemma SpelledEntry(name: string, arg: string)
    requires '(' !in name
    ensures ParseDenyEntry(name) == DenyEntry(name, None)
    ensures ParseDenyEntry(name + "(" + arg + ")") == DenyEntry(name, Some(arg))
    ensures arg == "" || arg[|arg| - 1] != ')' ==> ParseDenyEntry(name + "(" + arg) == DenyEntry(name, Some(arg))
  {
    ParsedEntry(name);
    ClosedEntry(name, arg, name + "(" + arg + ")");
    if arg == "" || arg[|arg| - 1] != ')' { OpenEntry(name, arg, name + "(" + arg); }
  }

  /** An entry `name(arg)` denies the calls whose tool the name spells and whose input the argument spells;
      `name()` and `name(` deny every call of the tool, and a bare name none by its input. */
  lemma ScopedDenies(name: string, arg: string, id: string, input: string)
    requires '(' !in name
    ensures !ArgDenies(name, id, input)
    ensures arg != "" ==>
      (ArgDenies(name + "(" + arg + ")", id, input) <==> Matches(name, id) && Matches(arg, input))
    ensures ArgDenies(name + "()", id, input) <==> Matches(name, id)
    ensures ArgDenies(name + "(", id, input) <==> Matches(name, id)
  {
    SpelledEntry(name, arg);
    ClosedEntry(name, "", name + "()");
    OpenEntry(name, "", name + "(");
  }

  /** Hidden whatever the lists and the default say: by a bare entry, or as more than a reader in plan mode. */
  ghost predicate Barred(p: Policy, tool: Tool) {
    || (exists k :: 0 <= k < |p.deny| && '(' !in p.deny[k] && Matches(p.deny[k], tool.id))
    || (p.mode == Some(Plan) && (tool.sideEffect.Idempotent? || tool.sideEffect.Destructive?))
  }

  /** No list and no mode decides about the tool, so the default does. */
  ghost predicate LeftToDefault(p: Policy, tool: Tool) {
    && (forall k :: 0 <= k < |p.allow| ==> !Matches(p.allow[k], tool.id))
    && (forall k :: 0 <= k < |p.ask| ==> !Matches(p.ask[k], tool.id))
    && (p.mode.None? || p.mode.value.Plan?)
  }

  ghost predicate Denied(policy: Option<Policy>, tool: Tool) {
    policy.Some? && (Barred(policy.value, tool)
                     || (LeftToDefault(policy.value, tool) && policy.value.default == Some(Deny)))
  }

  lemma BareDeniesExactly(deny: seq<string>, id: string)
    ensures BareDenies(deny, id) <==> exists k :: 0 <= k < |deny| && '(' !in deny[k] && Matches(deny[k], id)
  {
    forall k | 0 <= k < |deny| ensures
      && (ParseDenyEntry(deny[k]).argGlob.None? <==> '(' !in deny[k])
      && ('(' !in deny[k] ==> ParseDenyEntry(deny[k]).nameGlob == deny[k])
    {
      ParsedEntry(deny[k]);
    }
  }

  /** A tool is denied exactly when it is barred, or left to a default that denies. It is allowed without
      a policy; else when it is not barred and the allow list spells it, or the ask list does not and the
      mode bypasses questions, or it is left to a default that allows, which for a reader is the standing
      one. In all other cases there is a question. */
  lemma DecidesExactly(policy: Option<Policy>, tool: Tool)
    ensures EvaluatePermission(policy, tool).Deny? <==> Denied(policy, tool)
    ensures EvaluatePermission(policy, tool).Allow? <==>
      (policy.Some? ==>
        var p := policy.value;
        && !Barred(p, tool)
        && (|| (exists k :: 0 <= k < |p.allow| && Matches(p.allow[k], tool.id))
            || (&& (p.mode == Some(Bypass) || p.mode == Some(AcceptEdits))
                && forall k :: 0 <= k < |p.ask| ==> !Matches(p.ask[k], tool.id))
            || (LeftToDefault(p, tool)
                && (p.default == Some(Allow) || (p.default.None? && tool.sideEffect.ReadOnly?)))))
  {
    if policy.Some? { BareDeniesExactly(policy.value.deny, tool.id); }
  }

  /** The allow list goes before the ask list, and neither reaches what is barred. */
  lemma AddedAllow(p: Policy, glob: string, tool: Tool)
    ensures
      var before := EvaluatePermission(Some(p), tool);
      var after := EvaluatePermission(Some(p.(allow := p.allow + [glob])), tool);
      after == if !Barred(p, tool) && Matches(glob, tool.id) then Allow else before
  {
    BareDeniesExactly(p.deny, tool.id);
    MoreMatches(p.allow, glob, tool.id);
  }

  lemma AddedAsk(p: Policy, glob: string, tool: Tool)
    ensures
      var before := EvaluatePermission(Some(p), tool);
      var after := EvaluatePermission(Some(p.(ask := p.ask + [glob])), tool);
      after == if !Barred(p, tool) && Matches(glob, tool.id) && !AnyMatches(p.allow, tool.id) then Ask else before
  {
    BareDeniesExactly(p.deny, tool.id);
    MoreMatches(p.ask, glob, tool.id);
  }

  lemma MoreMatches(globs: seq<string>, glob: string, id: string)
    ensures AnyMatches(globs + [glob], id) <==> AnyMatches(globs, id) || Matches(glob, id)
  {
    var more := globs + [glob];
    assert more[|globs|] == glob && forall k :: 0 <= k < |globs| ==> more[k] == globs[k];
  }

  ghost function Shown(policy: Option<Policy>): Tool -> bool {
    tool => !Denied(policy, tool)
  }

  lemma FilterCons(t: Tool, rest: seq<Tool>, policy: Option<Policy>)
    ensures FilterTools([t] + rest, policy)
         == if Shown(policy)(t) then [t] + FilterTools(rest, policy) else FilterTools(rest, policy)
  {
    assert ([t] + rest)[1..] == rest;
    DecidesExactly(policy, t);
  }

  lemma FilterNone(none: seq<Tool>, policy: Option<Policy>)
    requires none == []
    ensures Picking.Selects(none, FilterTools(none, policy), Shown(policy), Picking.Same)
  {
    Picking.SelectsNone<Tool, Tool>(none, [], Shown(policy), Picking.Same);
  }

  /** The schema shows, in order, exactly the tools that are not denied. */
  lemma {:induction false} SchemaExactly(tools: seq<Tool>, policy: Option<Policy>)
    ensures Picking.Selects(tools, FilterTools(tools, policy), Shown(policy), Picking.Same)
    decreases |tools|
  {
    if tools == [] {
      FilterNone(tools, policy);
    } else {
      var t, rest := tools[0], tools[1..];
      assert tools == [t] + rest;
      SchemaExactly(rest, policy);
      FilterCons(t, rest, policy);
      Picking.SelectsCons(t, t, rest, FilterTools(rest, policy), Shown(policy), Picking.Same);
    }
  }

  /** Adding a bare entry hides exactly the tools its pattern spells, whatever the mode and the
      allow list; adding an argument-scoped entry changes no tool's static decision. */
  lemma AddedDeny(p: Policy, entry: string, tool: Tool)
    ensures
      var before := EvaluatePermission(Some(p), tool);
      var after := EvaluatePermission(Some(p.(deny := p.deny + [entry])), tool);
      if '(' in entry then after == before
      else after == if Matches(entry, tool.id) then Deny else before
  {
    ParsedEntry(entry);
    var more := p.deny + [entry];
    assert more[|p.deny|] == entry;
    if BareDenies(p.deny, tool.id) {
      var k :| 0 <= k < |p.deny| && ParseDenyEntry(p.deny[k]).argGlob.None?
               && Matches(ParseDenyEntry(p.deny[k]).nameGlob, tool.id);
      assert more[k] == p.deny[k];
    }
  }

  /** The tools that no bare entry spells. */
  ghost function Unspelled(tools: seq<Tool>, entries: seq<string>): seq<Tool> {
    if tools == [] then []
    else if BareDenies(entries, tools[0].id) then Unspelled(tools[1..], entries)
    else [tools[0]] + Unspelled(tools[1..], entries)
  }

  lemma MoreDenies(deny: seq<string>, extra: seq<string>, id: string)
    ensures BareDenies(deny + extra, id) <==> BareDenies(deny, id) || BareDenies(extra, id)
  {
    forall k | 0 <= k < |deny| ensures (deny + extra)[k] == deny[k] {}
    forall k | 0 <= k < |extra| ensures (deny + extra)[|deny| + k] == extra[k] {}
  }

  lemma UnspelledCons(t: Tool, rest: seq<Tool>, entries: seq<string>)
    ensures Unspelled([t] + rest, entries)
         == if BareDenies(entries, t.id) then Unspelled(rest, entries) else [t] + Unspelled(rest, entries)
  {
    assert ([t] + rest)[1..] == rest;
  }

  lemma StaysShown(p: Policy, extra: seq<string>, t: Tool)
    ensures Shown(Some(p.(deny := p.deny + extra)))(t) <==> Shown(Some(p))(t) && !BareDenies(extra, t.id)
  {
    MoreDenies(p.deny, extra, t.id);
    DecidesExactly(Some(p), t);
    DecidesExactly(Some(p.(deny := p.deny + extra)), t);
  }

  /** Filtering by a policy with more deny entries is filtering the filtered schema by these entries:
      they hide what they spell, bring nothing back whatever the mode, and keep the order. */
  lemma {:induction false} SchemaComposes(tools: seq<Tool>, p: Policy, extra: seq<string>)
    ensures FilterTools(tools, Some(p.(deny := p.deny + extra))) == Unspelled(FilterTools(tools, Some(p)), extra)
    decreases |tools|
  {
    if tools != [] {
      var t, rest := tools[0], tools[1..];
      assert tools == [t] + rest;
      SchemaComposes(rest, p, extra);
      FilterCons(t, rest, Some(p));
      FilterCons(t, rest, Some(p.(deny := p.deny + extra)));
      StaysShown(p, extra, t);
      UnspelledCons(t, FilterTools(rest, Some(p)), extra);
    }
  }
}

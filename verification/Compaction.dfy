/** Compaction of the model window: condensing of large tool results, protection and FIFO
    truncation under a token budget, and coalescing. */
module Compaction {
  import opened Options
  import Truncation

  datatype Role = SystemRole | UserRole | AssistantRole | ToolRole

  datatype Block =
    | Text(text: string)
    | Thinking(text: string)
    | ToolUse(callId: string, name: string, inputJson: string)
    | Image

  datatype Content = Plain(text: string) | Blocks(blocks: seq<Block>)

  datatype Message = Message(role: Role, content: Content, callId: Option<string>)

  datatype Config = Config(maxContextTokens: nat, keepRecentTurns: nat, toolResultMaxChars: nat)

  /** Content tests that rest on JSON parsing and regular expressions, and number rendering. */
  datatype Oracles = Oracles(
    pointer: string -> string, binary: string -> bool, failure: string -> bool, digits: nat -> string)

  // ---- sizes ----------------------------------------------------------------------------------------------------

  function BlockText(b: Block): string {
    match b
    case Text(text) => text
    case Thinking(text) => text
    case ToolUse(_, name, inputJson) => name + inputJson
    case Image => ""
  }

  function BlocksText(blocks: seq<Block>): string {
    if blocks == [] then "" else BlocksText(blocks[..|blocks| - 1]) + BlockText(blocks[|blocks| - 1])
  }

  function ContentText(c: Content): string {
    if c.Plain? then c.text else BlocksText(c.blocks)
  }

  function Size(m: Message): nat {
    |ContentText(m.content)|
  }

  function Sizes(ms: seq<Message>): (sizes: seq<nat>)
    ensures |sizes| == |ms| && forall k :: 0 <= k < |ms| ==> sizes[k] == Size(ms[k])
  {
    seq(|ms|, k requires 0 <= k < |ms| => Size(ms[k]))
  }

  function Chars(ms: seq<Message>): nat {
    Truncation.Sum(Sizes(ms))
  }

  /** About four characters a token, rounded up. */
  function Tokens(ms: seq<Message>): nat {
    Truncation.Quarter(Chars(ms))
  }

  /** Each block adds its text, a call its name and input, an image nothing. */
  lemma BlocksSize(blocks: seq<Block>, b: Block)
    ensures
      |BlocksText(blocks + [b])| == |BlocksText(blocks)| + match b
                                                           case Text(text) => |text|
                                                           case Thinking(text) => |text|
                                                           case ToolUse(_, name, inputJson) => |name| + |inputJson|
                                                           case Image => 0
  {
    assert (blocks + [b])[..|blocks|] == blocks;
  }

  lemma CharsSnoc(ms: seq<Message>, m: Message)
    ensures Chars(ms + [m]) == Chars(ms) + Size(m)
  {
    assert Sizes(ms + [m]) == Sizes(ms) + [Size(m)];
    Truncation.SumSnoc(Sizes(ms), Size(m));
  }

  lemma CharsFrom(ms: seq<Message>, i: nat)
    requires i < |ms|
    ensures Chars(ms[i..]) == Size(ms[i]) + Chars(ms[i + 1..])
  {
    assert Sizes(ms[i..]) == [Size(ms[i])] + Sizes(ms[i + 1..]);
    Truncation.SumCons(Size(ms[i]), Sizes(ms[i + 1..]));
  }

  lemma CharsSlice(ms: seq<Message>, from: nat, i: nat)
    requires from <= i < |ms|
    ensures Chars(ms[from..i + 1]) == Chars(ms[from..i]) + Size(ms[i])
  {
    assert ms[from..i + 1] == ms[from..i] + [ms[i]];
    CharsSnoc(ms[from..i], ms[i]);
  }

  /** `tailTokens`; from 0 it is `estimateTokens`. */
  method TailTokens(ms: seq<Message>, from: nat) returns (tokens: nat)
    requires from <= |ms|
    ensures tokens == Tokens(ms[from..])
  {
    var chars := 0;
    for i := from to |ms|
      invariant chars == Chars(ms[from..i])
    {
      CharsSlice(ms, from, i);
      chars := chars + Size(ms[i]);
    }
    assert ms[from..|ms|] == ms[from..];
    tokens := (chars + 3) / 4;
  }

  method EstimateTokens(ms: seq<Message>) returns (tokens: nat)
    ensures tokens == Tokens(ms)
  {
    assert ms[0..] == ms;
    tokens := TailTokens(ms, 0);
  }

  // ---- stage 1: condensing --------------------------------------------------------------------------------------

  function Condense(o: Oracles, s: string, maxChars: nat): string {
    var pointer := o.pointer(s);
    var prefix := if pointer == "" then "" else "[" + pointer + "] ";
    if o.binary(s) then prefix + "…[binary/base64 omitted: " + o.digits(|s|) + " chars]…"
    else
      var headLen, tailLen := maxChars * 6 / 10, maxChars * 2 / 10;
      var head := if headLen <= |s| then s[..headLen] else s;
      var tail := if tailLen <= |s| then s[|s| - tailLen..] else s;
      var dropped := if |head| + |tail| <= |s| then |s| - |head| - |tail| else 0;
      prefix + head + "…[condensed " + o.digits(dropped) + " chars]…" + tail
  }

  predicate Oversized(m: Message, maxChars: nat) {
    m.role.ToolRole? && Size(m) > maxChars
  }

  function CondenseOne(o: Oracles, m: Message, maxChars: nat): Message {
    if Oversized(m, maxChars) then m.(content := Plain(Condense(o, ContentText(m.content), maxChars))) else m
  }

  function Stage1(o: Oracles, ms: seq<Message>, maxChars: nat): (r: seq<Message>)
    ensures |r| == |ms|
    ensures forall k :: 0 <= k < |ms| ==> r[k] == CondenseOne(o, ms[k], maxChars)
  {
    seq(|ms|, k requires 0 <= k < |ms| => CondenseOne(o, ms[k], maxChars))
  }

  /** Exactly the tool results longer than the limit are condensed; nothing else changes. */
  lemma Stage1Exactly(o: Oracles, ms: seq<Message>, maxChars: nat, k: nat)
    requires k < |ms|
    ensures
      var m := ms[k];
      Stage1(o, ms, maxChars)[k]
        == if m.role.ToolRole? && |ContentText(m.content)| > maxChars
           then Message(m.role, Plain(Condense(o, ContentText(m.content), maxChars)), m.callId) else m
  {
  }

  /** Binary payloads leave nothing but a note of their length. */
  lemma CondenseOmitsBinary(o: Oracles, s: string, maxChars: nat)
    requires o.binary(s)
    ensures Condense(o, s, maxChars) == Pointed(o, s) + "…[binary/base64 omitted: " + o.digits(|s|) + " chars]…"
  {
  }

  /** The pointer of a tool result, in brackets, if it has one. */
  function Pointed(o: Oracles, s: string): string {
    if o.pointer(s) == "" then "" else "[" + o.pointer(s) + "] "
  }

  /** A condensed text keeps the ends of the original, and names how much of it is missing. */
  lemma CondenseKeepsEnds(o: Oracles, s: string, maxChars: nat)
    requires |s| > maxChars && !o.binary(s)
    ensures exists dropped: nat ::
      && dropped == |s| - maxChars * 6 / 10 - maxChars * 2 / 10 && dropped >= 1
      && Condense(o, s, maxChars) == Pointed(o, s) + s[..maxChars * 6 / 10]
           + ("…[condensed " + o.digits(dropped) + " chars]…") + s[|s| - maxChars * 2 / 10..]
  {
    var front := Pointed(o, s);
    var head, tail := s[..maxChars * 6 / 10], s[|s| - maxChars * 2 / 10..];
    var dropped := |s| - |head| - |tail|;
    assert Condense(o, s, maxChars) == front + head + "…[condensed " + o.digits(dropped) + " chars]…" + tail;
    assert Condense(o, s, maxChars) == front + head + ("…[condensed " + o.digits(dropped) + " chars]…") + tail;
  }

  // ---- pairing --------------------------------------------------------------------------------------------------

  /** A message's own call id; an empty one counts as none. */
  predicate HasCallId(m: Message) {
    m.callId.Some? && m.callId.value != ""
  }

  predicate Issues(m: Message, id: string) {
    m.role.AssistantRole? && m.content.Blocks?
    && exists k :: 0 <= k < |m.content.blocks| && m.content.blocks[k].ToolUse? && m.content.blocks[k].callId == id
  }

  predicate Answers(m: Message, id: string) {
    m.role.ToolRole? && HasCallId(m) && m.callId.value == id
  }

  /** The last message that issues `id`. */
  function Issuer(ms: seq<Message>, id: string): Option<nat> {
    if ms == [] then None
    else if Issues(ms[|ms| - 1], id) then Some(|ms| - 1)
    else Issuer(ms[..|ms| - 1], id)
  }

  /** The last message that answers `id`. */
  function Answerer(ms: seq<Message>, id: string): Option<nat> {
    if ms == [] then None
    else if Answers(ms[|ms| - 1], id) then Some(|ms| - 1)
    else Answerer(ms[..|ms| - 1], id)
  }

  lemma {:induction false} IssuerIs(ms: seq<Message>, id: string)
    ensures Issuer(ms, id).Some? ==> Issuer(ms, id).value < |ms| && Issues(ms[Issuer(ms, id).value], id)
    ensures forall k :: 0 <= k < |ms| && Issues(ms[k], id) ==> Issuer(ms, id).Some? && k <= Issuer(ms, id).value
  {
    if ms != [] { IssuerIs(ms[..|ms| - 1], id); }
  }

  lemma {:induction false} AnswererIs(ms: seq<Message>, id: string)
    ensures Answerer(ms, id).Some? ==> Answerer(ms, id).value < |ms| && Answers(ms[Answerer(ms, id).value], id)
    ensures forall k :: 0 <= k < |ms| && Answers(ms[k], id) ==> Answerer(ms, id).Some? && k <= Answerer(ms, id).value
  {
    if ms != [] { AnswererIs(ms[..|ms| - 1], id); }
  }

  ghost predicate Maps(ms: seq<Message>, issuer: map<string, nat>, answerer: map<string, nat>) {
    && (forall id :: id in issuer <==> Issuer(ms, id).Some?)
    && (forall id :: id in issuer ==> Issuer(ms, id) == Some(issuer[id]))
    && (forall id :: id in answerer <==> Answerer(ms, id).Some?)
    && (forall id :: id in answerer ==> Answerer(ms, id) == Some(answerer[id]))
  }

  /** `buildPairingMap`. */
  method BuildPairingMap(ms: seq<Message>) returns (issuer: map<string, nat>, answerer: map<string, nat>)
    ensures Maps(ms, issuer, answerer)
  {
    issuer, answerer := map[], map[];
    for i := 0 to |ms|
      invariant Maps(ms[..i], issuer, answerer)
    {
      var m := ms[i];
      assert ms[..i + 1][..i] == ms[..i];
      if m.role.AssistantRole? && m.content.Blocks? {
        var before, blocks := issuer, m.content.blocks;
        for k := 0 to |blocks|
          invariant forall id :: id in issuer <==>
            id in before || exists j :: 0 <= j < k && blocks[j].ToolUse? && blocks[j].callId == id
          invariant forall id :: id in issuer ==>
            issuer[id]
              == if exists j :: 0 <= j < k && blocks[j].ToolUse? && blocks[j].callId == id then i else before[id]
        {
          if blocks[k].ToolUse? { issuer := issuer[blocks[k].callId := i]; }
        }
      } else if m.role.ToolRole? && HasCallId(m) {
        answerer := answerer[m.callId.value := i];
      }
    }
    assert ms[..|ms|] == ms;
  }

  // ---- protection -----------------------------------------------------------------------------------------------

  /** `i` protected makes `j` protected. */
  predicate Link(ms: seq<Message>, i: nat, j: nat) {
    i < |ms| && j < |ms| && (ToolLink(ms, i, j) || CallLink(ms, i, j))
  }

  /** From a result to the message that issued its call. */
  predicate ToolLink(ms: seq<Message>, i: nat, j: nat)
    requires i < |ms|
  {
    ms[i].role.ToolRole? && HasCallId(ms[i]) && Issuer(ms, ms[i].callId.value) == Some(j)
  }

  /** From a message with calls to the result of one of them. */
  predicate CallLink(ms: seq<Message>, i: nat, j: nat)
    requires i < |ms|
  {
    ms[i].role.AssistantRole? && ms[i].content.Blocks?
    && exists k :: 0 <= k < |ms[i].content.blocks| && ms[i].content.blocks[k].ToolUse?
         && Answerer(ms, ms[i].content.blocks[k].callId) == Some(j)
  }

  ghost predicate Closed(ms: seq<Message>, p: set<nat>) {
    forall i, j :: i in p && Link(ms, i, j) ==> j in p
  }

  /** The least set that holds the directly protected indices and is closed under pairing. */
  ghost predicate LeastClosed(ms: seq<Message>, direct: set<nat>, p: set<nat>) {
    && direct <= p && Closed(ms, p)
    && forall q :: direct <= q && Closed(ms, q) ==> p <= q
  }

  /** The indices of the last `keep` messages other than the system prefix. */
  function Recent(ms: seq<Message>, keep: nat): (r: set<nat>)
    ensures forall i :: i in r ==> i < |ms| && !ms[i].role.SystemRole?
  {
    if ms == [] || keep == 0 then {}
    else
      var n := |ms| - 1;
      if ms[n].role.SystemRole? then Recent(ms[..n], keep) else {n} + Recent(ms[..n], keep - 1)
  }

  /** The non-system messages after an index. */
  function Followers(ms: seq<Message>, i: nat): set<nat> {
    set j: nat | i < j < |ms| && !ms[j].role.SystemRole?
  }

  lemma FollowersSnoc(ms: seq<Message>, i: nat)
    requires ms != [] && i < |ms| - 1
    ensures
      var n := |ms| - 1;
      |Followers(ms, i)| == |Followers(ms[..n], i)| + if ms[n].role.SystemRole? then 0 else 1
  {
    var n: nat := |ms| - 1;
    var front := ms[..n];
    assert forall j :: 0 <= j < n ==> front[j] == ms[j];
    if ms[n].role.SystemRole? {
      assert Followers(ms, i) == Followers(front, i);
    } else {
      assert Followers(ms, i) == Followers(front, i) + {n} && n !in Followers(front, i);
    }
  }

  /** A message is recent exactly when it is not a system message and fewer than `keep` others follow. */
  lemma {:induction false} RecentExactly(ms: seq<Message>, keep: nat, i: nat)
    ensures i in Recent(ms, keep) <==> i < |ms| && !ms[i].role.SystemRole? && |Followers(ms, i)| < keep
    decreases |ms|
  {
    if ms != [] && i < |ms| {
      var n: nat := |ms| - 1;
      if i == n {
        assert Followers(ms, i) == {};
      } else {
        FollowersSnoc(ms, i);
        if ms[n].role.SystemRole? { RecentExactly(ms[..n], keep, i); }
        else if keep > 0 { RecentExactly(ms[..n], keep - 1, i); }
      }
    }
  }

  function NonSystem(ms: seq<Message>): set<nat> {
    set j: nat | j < |ms| && !ms[j].role.SystemRole?
  }

  predicate RecentCounts(ms: seq<Message>, keep: nat) {
    |Recent(ms, keep)| == if |NonSystem(ms)| <= keep then |NonSystem(ms)| else keep
  }

  lemma NonSystemSnoc(front: seq<Message>, m: Message, n: nat, ms: seq<Message>)
    requires ms == front + [m] && n == |front|
    ensures n !in NonSystem(front)
    ensures NonSystem(ms) == if m.role.SystemRole? then NonSystem(front) else NonSystem(front) + {n}
  {
  }

  lemma RecentNext(front: seq<Message>, m: Message, n: nat, ms: seq<Message>, keep: nat, less: nat)
    requires ms == front + [m] && n == |front|
    requires if m.role.SystemRole? then less == keep else keep == less + 1
    requires front != [] || !m.role.SystemRole? || keep > 0
    ensures n !in Recent(front, less)
    ensures Recent(ms, keep) == if m.role.SystemRole? then Recent(front, less) else {n} + Recent(front, less)
  {
    assert ms[..n] == front;
  }

  lemma AddsOne(s: set<nat>, n: nat)
    requires n !in s
    ensures |s + {n}| == |s| + 1 && |{n} + s| == |s| + 1
  {
    assert s + {n} == {n} + s;
  }

  lemma RecentSnoc(front: seq<Message>, m: Message, n: nat, ms: seq<Message>, keep: nat, less: nat)
    requires ms == front + [m] && n == |front| && keep > 0
    requires if m.role.SystemRole? then less == keep else keep == less + 1
    requires RecentCounts(front, less)
    ensures RecentCounts(ms, keep)
  {
    NonSystemSnoc(front, m, n, ms);
    RecentNext(front, m, n, ms, keep, less);
    AddsOne(NonSystem(front), n);
    AddsOne(Recent(front, less), n);
  }

  lemma NoneRecent(ms: seq<Message>, keep: nat)
    requires ms == [] || keep == 0
    ensures RecentCounts(ms, keep)
  {
    if ms == [] { assert NonSystem(ms) == {}; }
  }

  /** There are `keep` recent messages, or as many as there are. */
  lemma {:induction false} RecentSize(ms: seq<Message>, keep: nat)
    ensures RecentCounts(ms, keep)
    decreases |ms|
  {
    if ms == [] || keep == 0 {
      NoneRecent(ms, keep);
    } else {
      var front, m := ms[..|ms| - 1], ms[|ms| - 1];
      var less: nat := if m.role.SystemRole? then keep else keep - 1;
      RecentSize(front, less);
      RecentSnoc(front, m, |front|, ms, keep, less);
    }
  }

  predicate DirectAt(o: Oracles, ms: seq<Message>, keep: nat, i: nat)
    requires i < |ms|
  {
    || ms[i].role.SystemRole? || i in Recent(ms, keep) || ms[i].role.UserRole?
    || (ms[i].role.ToolRole? && o.failure(ContentText(ms[i].content)))
  }

  function Direct(o: Oracles, ms: seq<Message>, keep: nat): set<nat> {
    set i: nat | i < |ms| && DirectAt(o, ms, keep, i)
  }

  method DirectlyProtected(o: Oracles, ms: seq<Message>, keep: nat) returns (direct: set<nat>)
    ensures direct == Direct(o, ms, keep)
    ensures forall i: nat :: (i in direct <==>
      (i < |ms| && (ms[i].role.SystemRole? || ms[i].role.UserRole? || |Followers(ms, i)| < keep
                    || (ms[i].role.ToolRole? && o.failure(ContentText(ms[i].content))))))
  {
    var recent, kept, i := {}, 0, |ms|;
    assert ms[..|ms|] == ms;
    while i > 0 && kept < keep
      invariant 0 <= i <= |ms| && kept <= keep
      invariant Recent(ms, keep) == recent + Recent(ms[..i], keep - kept)
    {
      i := i - 1;
      assert ms[..i + 1][..i] == ms[..i];
      if !ms[i].role.SystemRole? { recent, kept := recent + {i}, kept + 1; }
    }
    assert recent == Recent(ms, keep);
    direct := {};
    for k := 0 to |ms|
      invariant direct == set j: nat | j < k && DirectAt(o, ms, keep, j)
    {
      if ms[k].role.SystemRole? || k in recent || ms[k].role.UserRole?
         || (ms[k].role.ToolRole? && o.failure(ContentText(ms[k].content))) {
        direct := direct + {k};
      }
    }
    forall j: nat | j < |ms|
      ensures j in Recent(ms, keep) <==> !ms[j].role.SystemRole? && |Followers(ms, j)| < keep
    {
      RecentExactly(ms, keep, j);
    }
  }

  /** First half of a pass: a protected result protects the message that issued its call. */
  method ProtectIssuers(ms: seq<Message>, issuer: map<string, nat>, answerer: map<string, nat>, p: set<nat>)
    returns (q: set<nat>)
    requires Maps(ms, issuer, answerer)
    ensures p <= q && (forall j :: j in q && j !in p ==> j < |ms| && ms[j].role.AssistantRole?)
    ensures forall i, j :: i in q && i < |ms| && ToolLink(ms, i, j) ==> j in q
    ensures forall c :: p <= c && Closed(ms, c) ==> q <= c
  {
    q := p;
    for i := 0 to |ms|
      invariant p <= q && forall j :: j in q && j !in p ==> j < |ms| && ms[j].role.AssistantRole?
      invariant forall k, j :: 0 <= k < i && k in q && ToolLink(ms, k, j) ==> j in q
      invariant forall c :: p <= c && Closed(ms, c) ==> q <= c
    {
      if ms[i].role.ToolRole? && HasCallId(ms[i]) && i in q {
        var id := ms[i].callId.value;
        IssuerIs(ms, id);
        if id in issuer && issuer[id] !in q {
          var j := issuer[id];
          assert Issuer(ms, id) == Some(j) && Issues(ms[j], id);
          assert Link(ms, i, j);
          q := q + {issuer[id]};
        }
      }
    }
  }

  /** The results of one message's calls. */
  method ProtectAnswers(ms: seq<Message>, issuer: map<string, nat>, answerer: map<string, nat>, i: nat, p: set<nat>)
    returns (q: set<nat>)
    requires Maps(ms, issuer, answerer) && i < |ms| && i in p
    requires ms[i].role.AssistantRole? && ms[i].content.Blocks?
    ensures p <= q && forall j :: j in q && j !in p ==> j < |ms| && ms[j].role.ToolRole? && CallLink(ms, i, j)
    ensures forall j :: CallLink(ms, i, j) ==> j in q
    ensures forall c :: p <= c && Closed(ms, c) ==> q <= c
  {
    q := p;
    var blocks := ms[i].content.blocks;
    for k := 0 to |blocks|
      invariant p <= q && forall j :: j in q && j !in p ==> j < |ms| && ms[j].role.ToolRole? && CallLink(ms, i, j)
      invariant forall b, j ::
        0 <= b < k && blocks[b].ToolUse? && Answerer(ms, blocks[b].callId) == Some(j) ==> j in q
      invariant forall c :: p <= c && Closed(ms, c) ==> q <= c
    {
      if blocks[k].ToolUse? {
        var id := blocks[k].callId;
        AnswererIs(ms, id);
        if id in answerer && answerer[id] !in q {
          assert CallLink(ms, i, answerer[id]) && Link(ms, i, answerer[id]);
          q := q + {answerer[id]};
        }
      }
    }
  }

  /** Second half of a pass: a protected message with calls protects their results. */
  method ProtectResults(ms: seq<Message>, issuer: map<string, nat>, answerer: map<string, nat>, p: set<nat>)
    returns (q: set<nat>)
    requires Maps(ms, issuer, answerer)
    ensures p <= q && forall j :: j in q && j !in p ==>
      j < |ms| && ms[j].role.ToolRole? && exists i :: i in p && i < |ms| && CallLink(ms, i, j)
    ensures forall i, j :: i in q && i < |ms| && CallLink(ms, i, j) ==> j in q
    ensures forall c :: p <= c && Closed(ms, c) ==> q <= c
  {
    q := p;
    for i := 0 to |ms|
      invariant p <= q && forall j :: j in q && j !in p ==>
        j < |ms| && ms[j].role.ToolRole? && exists k :: k in p && k < |ms| && CallLink(ms, k, j)
      invariant forall k, j :: 0 <= k < i && k in q && CallLink(ms, k, j) ==> j in q
      invariant forall c :: p <= c && Closed(ms, c) ==> q <= c
    {
      if ms[i].role.AssistantRole? && i in q && ms[i].content.Blocks? {
        q := ProtectAnswers(ms, issuer, answerer, i, q);
      }
    }
  }

  /** The changed-flag loop: one round does both halves, and rounds repeat until one adds nothing. */
  method Protect(ms: seq<Message>, direct: set<nat>) returns (p: set<nat>, passes: nat)
    requires forall i :: i in direct ==> i < |ms|
    ensures LeastClosed(ms, direct, p) && forall i :: i in p ==> i < |ms|
    ensures UniqueIds(ms) ==> passes <= 2
  {
    var issuer, answerer := BuildPairingMap(ms);
    p, passes := direct, 0;
    var changed := true;
    while changed
      invariant direct <= p && forall i :: i in p ==> i < |ms|
      invariant forall c :: direct <= c && Closed(ms, c) ==> p <= c
      invariant !changed ==> Closed(ms, p)
      invariant UniqueIds(ms) ==> if changed then passes <= 1 && (passes == 1 ==> Closed(ms, p)) else passes <= 2
      decreases Indices(|ms|) - p, changed
    {
      var q := ProtectIssuers(ms, issuer, answerer, p);
      var r := ProtectResults(ms, issuer, answerer, q);
      PassCloses(ms, p, q, r);
      changed, passes := r != p, passes + 1;
      p := r;
    }
  }

  function Indices(n: nat): (all: set<nat>)
    ensures forall i :: i in all <==> 0 <= i < n
  {
    if n == 0 then {} else Indices(n - 1) + {n - 1}
  }

  /** No call id is issued by two messages or answered by two messages. */
  ghost predicate UniqueIds(ms: seq<Message>) {
    && (forall i, j, id :: IssuedAt(ms, i, id) && IssuedAt(ms, j, id) ==> i == j)
    && (forall i, j, id :: AnsweredAt(ms, i, id) && AnsweredAt(ms, j, id) ==> i == j)
  }

  predicate IssuedAt(ms: seq<Message>, i: nat, id: string) {
    i < |ms| && Issues(ms[i], id)
  }

  predicate AnsweredAt(ms: seq<Message>, i: nat, id: string) {
    i < |ms| && Answers(ms[i], id)
  }

  /** A round that adds nothing ends on a closed set; with unique ids every round does. */
  lemma PassCloses(ms: seq<Message>, p: set<nat>, q: set<nat>, r: set<nat>)
    requires p <= q <= r
    requires forall i, j :: i in q && i < |ms| && ToolLink(ms, i, j) ==> j in q
    requires forall j :: j in r && j !in q ==> (exists i :: i in q && i < |ms| && CallLink(ms, i, j))
    requires forall i, j :: i in r && i < |ms| && CallLink(ms, i, j) ==> j in r
    ensures r == p || UniqueIds(ms) ==> Closed(ms, r)
  {
    if r == p || UniqueIds(ms) {
      forall i, j | i in r && Link(ms, i, j) ensures j in r {
        if ToolLink(ms, i, j) && i !in q {
          assert i in r - q;
          var a :| a in q && a < |ms| && CallLink(ms, a, i);
          PairIsUnique(ms, a, i, j);
        }
      }
    }
  }

  lemma PairIsUnique(ms: seq<Message>, a: nat, i: nat, j: nat)
    requires UniqueIds(ms) && a < |ms| && i < |ms| && CallLink(ms, a, i) && ToolLink(ms, i, j)
    ensures a == j
  {
    var blocks := ms[a].content.blocks;
    var k :| 0 <= k < |blocks| && blocks[k].ToolUse? && Answerer(ms, blocks[k].callId) == Some(i);
    var id := blocks[k].callId;
    AnswererIs(ms, id);
    IssuerIs(ms, id);
    assert IssuedAt(ms, a, id) && IssuedAt(ms, j, id);
  }

  lemma LeastIsUnique(ms: seq<Message>, direct: set<nat>, p: set<nat>, q: set<nat>)
    requires LeastClosed(ms, direct, p) && LeastClosed(ms, direct, q)
    ensures p == q
  {
    assert p <= q && q <= p;
  }

  // ---- stage 3: FIFO truncation ---------------------------------------------------------------------------------

  predicate LowSignal(m: Message) {
    m.role.ToolRole? || m.role.AssistantRole?
  }

  /** The window as truncation sees it: only unprotected low-signal messages may be dropped. */
  function Items(ms: seq<Message>, p: set<nat>): (items: seq<Truncation.Item>)
    ensures |items| == |ms|
    ensures forall k :: 0 <= k < |ms| ==> items[k] == Truncation.Item(Size(ms[k]), k !in p && LowSignal(ms[k]))
  {
    seq(|ms|, k requires 0 <= k < |ms| => Truncation.Item(Size(ms[k]), k !in p && LowSignal(ms[k])))
  }

  /** The budget guard at `i`: what survived so far and the rest of the window are estimated apart. */
  predicate BudgetFits(ms: seq<Message>, p: set<nat>, max: nat, i: nat)
    requires i < |ms|
  {
    Truncation.Guard(Items(ms, p), max, i)
  }

  /** Exactly when an index survives. */
  predicate Survives(ms: seq<Message>, p: set<nat>, max: nat, j: nat)
    requires j < |ms|
  {
    BudgetFits(ms, p, max, j) || j in p || ms[j].role.SystemRole? || ms[j].role.UserRole?
  }

  function Alive(ms: seq<Message>, p: set<nat>, max: nat): (alive: seq<bool>)
    ensures |alive| == |ms| && forall k :: 0 <= k < |ms| ==> (alive[k] <==> Survives(ms, p, max, k))
  {
    Truncation.Alive(Items(ms, p), max)
  }

  function KeptIndices(ms: seq<Message>, p: set<nat>, max: nat): seq<nat> {
    Truncation.Indices(Alive(ms, p, max), |ms|)
  }

  function Truncated(ms: seq<Message>, p: set<nat>, max: nat): seq<Message> {
    Truncation.Select(ms, Alive(ms, p, max), |ms|)
  }

  lemma {:induction false} RestIsTail(ms: seq<Message>, p: set<nat>, i: nat)
    requires i <= |ms|
    ensures Truncation.Rest(Items(ms, p), i) == Chars(ms[i..])
    decreases |ms| - i
  {
    if i < |ms| {
      CharsFrom(ms, i);
      RestIsTail(ms, p, i + 1);
    }
  }

  /** The survivors so far weigh what the arithmetic says. */
  ghost predicate Weighed(ms: seq<Message>, p: set<nat>, max: nat, i: nat, survivors: seq<Message>) {
    && i <= |ms| && survivors == Truncation.Select(ms, Alive(ms, p, max), i)
    && Chars(survivors) == Truncation.Kept(Items(ms, p), max, i)
  }

  lemma WeighedNext(ms: seq<Message>, p: set<nat>, max: nat, i: nat, survivors: seq<Message>)
    requires i < |ms| && Weighed(ms, p, max, i, survivors)
    ensures Weighed(ms, p, max, i + 1, if Survives(ms, p, max, i) then survivors + [ms[i]] else survivors)
  {
    CharsSnoc(survivors, ms[i]);
  }

  /** What one turn of the loop makes of the survivors. */
  function Turn(ms: seq<Message>, p: set<nat>, max: nat, i: nat, survivors: seq<Message>): seq<Message>
    requires i < |ms|
  {
    if Tokens(survivors) + Tokens(ms[i..]) <= max || i in p || !LowSignal(ms[i]) then survivors + [ms[i]] else survivors
  }

  /** The estimates of the loop are its guard, so one turn keeps exactly what survives. */
  lemma WeighedTurn(ms: seq<Message>, p: set<nat>, max: nat, i: nat, survivors: seq<Message>)
    requires i < |ms| && Weighed(ms, p, max, i, survivors)
    ensures Weighed(ms, p, max, i + 1, Turn(ms, p, max, i, survivors))
  {
    RestIsTail(ms, p, i);
    assert Tokens(survivors) + Tokens(ms[i..]) <= max <==> BudgetFits(ms, p, max, i);
    WeighedNext(ms, p, max, i, survivors);
  }

  lemma {:induction false} AlwaysWeighed(ms: seq<Message>, p: set<nat>, max: nat, i: nat)
    requires i <= |ms|
    ensures Weighed(ms, p, max, i, Truncation.Select(ms, Alive(ms, p, max), i))
    decreases i
  {
    if i > 0 {
      var j: nat := i - 1;
      AlwaysWeighed(ms, p, max, j);
      WeighedNext(ms, p, max, j, Truncation.Select(ms, Alive(ms, p, max), j));
      assert j + 1 == i;
    }
  }

  lemma TraceStep(ms: seq<Message>, p: set<nat>, max: nat, k: nat, next: nat)
    requires k < |ms| && next == k + 1
    ensures
      var alive := Alive(ms, p, max);
      Truncation.Select(ms, alive, next) == Turn(ms, p, max, k, Truncation.Select(ms, alive, k))
  {
    AlwaysWeighed(ms, p, max, k);
    WeighedTurn(ms, p, max, k, Truncation.Select(ms, Alive(ms, p, max), k));
  }

  /** The survivors of each turn, from none on. */
  ghost predicate Traces(ms: seq<Message>, p: set<nat>, max: nat, trace: seq<seq<Message>>) {
    && 0 < |trace| <= |ms| + 1 && trace[0] == []
    && forall k :: 0 <= k < |trace| - 1 ==> trace[k + 1] == Turn(ms, p, max, k, trace[k])
  }

  lemma TraceNext(ms: seq<Message>, p: set<nat>, max: nat, trace: seq<seq<Message>>, next: seq<Message>)
    requires Traces(ms, p, max, trace) && |trace| <= |ms|
    requires next == Turn(ms, p, max, |trace| - 1, trace[|trace| - 1])
    ensures Traces(ms, p, max, trace + [next])
  {
  }

  /** The trace up to turn `i`. */
  ghost predicate TracesTo(ms: seq<Message>, p: set<nat>, max: nat, i: nat, trace: seq<seq<Message>>) {
    && i <= |ms| && |trace| == i + 1 && Traces(ms, p, max, trace)
    && trace[i] == Truncation.Select(ms, Alive(ms, p, max), i)
  }

  lemma TraceGrows(ms: seq<Message>, p: set<nat>, max: nat, j: nat, i: nat, trace: seq<seq<Message>>)
    requires j + 1 == i <= |ms| && TracesTo(ms, p, max, j, trace)
    ensures TracesTo(ms, p, max, i, trace + [Truncation.Select(ms, Alive(ms, p, max), i)])
  {
    TraceStep(ms, p, max, j, i);
    assert |trace| - 1 == j;
    TraceNext(ms, p, max, trace, Truncation.Select(ms, Alive(ms, p, max), i));
  }

  lemma TraceNone(ms: seq<Message>, p: set<nat>, max: nat, i: nat)
    requires i == 0
    ensures TracesTo(ms, p, max, i, [[]])
  {
  }

  lemma {:induction false} TraceTo(ms: seq<Message>, p: set<nat>, max: nat, i: nat) returns (trace: seq<seq<Message>>)
    requires i <= |ms|
    ensures TracesTo(ms, p, max, i, trace)
    decreases i
  {
    if i == 0 {
      trace := [[]];
      TraceNone(ms, p, max, i);
    } else {
      var j: nat := i - 1;
      trace := TraceTo(ms, p, max, j);
      TraceGrows(ms, p, max, j, i, trace);
      trace := trace + [Truncation.Select(ms, Alive(ms, p, max), i)];
    }
  }

  method Truncate(ms: seq<Message>, p: set<nat>, max: nat) returns (survivors: seq<Message>, applied: bool)
    ensures survivors == Truncated(ms, p, max)
    ensures applied <==> |survivors| < |ms|
  {
    ghost var trace := TraceTo(ms, p, max, |ms|);
    survivors, applied := [], false;
    for i := 0 to |ms|
      invariant survivors == trace[i]
      invariant |survivors| <= i && (applied <==> |survivors| < i)
    {
      var head := EstimateTokens(survivors);
      var tail := TailTokens(ms, i);
      if head + tail <= max {
        survivors := survivors + [ms[i]];
      } else if i !in p && LowSignal(ms[i]) {
        applied := true;
      } else {
        survivors := survivors + [ms[i]];
      }
    }
  }

  /** The survivors, in order, are exactly the messages that survive: a subsequence of the window. */
  lemma KeptExactly(ms: seq<Message>, p: set<nat>, max: nat)
    ensures
      var ks := KeptIndices(ms, p, max);
      && Truncation.InRange(|ms|, ks) && Truncation.StrictlyIncreasing(ks)
      && Truncated(ms, p, max) == Truncation.Pick(ms, ks)
      && forall j :: j in ks <==> 0 <= j < |ms| && Survives(ms, p, max, j)
  {
    Truncation.IndicesRight(Alive(ms, p, max), |ms|);
    Truncation.SelectIsPick(ms, Alive(ms, p, max), |ms|);
  }

  /** Once the guard has held the result fits, despite the two roundings. */
  lemma FitsFromThenOn(ms: seq<Message>, p: set<nat>, max: nat, g: nat)
    requires g < |ms| && BudgetFits(ms, p, max, g)
    ensures Tokens(Truncated(ms, p, max)) <= max
  {
    Truncation.FitsFromThenOn(Items(ms, p), max, g, |ms|);
    AlwaysWeighed(ms, p, max, |ms|);
  }

  /** Nothing that compaction may not drop is left unprotected. */
  ghost predicate CoversSignal(ms: seq<Message>, p: set<nat>) {
    forall j: nat :: j < |ms| && !LowSignal(ms[j]) ==> j in p
  }

  /** Stage 3 returns a subsequence that keeps every protected message and drops only unprotected
      assistant and tool messages; and it fits the budget or is exactly what it may not drop. */
  lemma TruncationBound(ms: seq<Message>, p: set<nat>, max: nat)
    requires CoversSignal(ms, p)
    ensures
      var ks := KeptIndices(ms, p, max);
      && Truncation.StrictlyIncreasing(ks)
      && (forall j :: j in p && j < |ms| ==> j in ks)
      && (forall j :: 0 <= j < |ms| && j !in ks ==> j !in p && LowSignal(ms[j]))
      && (Tokens(Truncated(ms, p, max)) <= max || forall j :: j in ks <==> j in p && j < |ms|)
  {
    KeptExactly(ms, p, max);
    if g :| 0 <= g < |ms| && BudgetFits(ms, p, max, g) { FitsFromThenOn(ms, p, max, g); }
  }

  // ---- pairs ----------------------------------------------------------------------------------------------------

  /** A message and the result of one of its calls, each the one the pairing map holds. */
  predicate Pair(ms: seq<Message>, a: nat, t: nat) {
    a < |ms| && t < |ms| && CallLink(ms, a, t) && ToolLink(ms, t, a)
  }

  /** A pair with a protected member survives whole. */
  lemma ProtectedPairSurvives(ms: seq<Message>, direct: set<nat>, p: set<nat>, max: nat, a: nat, t: nat)
    requires LeastClosed(ms, direct, p) && Pair(ms, a, t) && (a in p || t in p)
    ensures a in KeptIndices(ms, p, max) && t in KeptIndices(ms, p, max)
  {
    assert Link(ms, a, t) && Link(ms, t, a);
    KeptExactly(ms, p, max);
  }

  /** An unprotected pair is split exactly when the budget guard differs at its two members. */
  lemma PairSplitExactly(ms: seq<Message>, direct: set<nat>, p: set<nat>, max: nat, a: nat, t: nat)
    requires LeastClosed(ms, direct, p) && Pair(ms, a, t)
    ensures
      var ks := KeptIndices(ms, p, max);
      (a in ks <==> t in ks) <==> a in p || (BudgetFits(ms, p, max, a) <==> BudgetFits(ms, p, max, t))
  {
    assert Link(ms, a, t) && Link(ms, t, a);
    KeptExactly(ms, p, max);
  }

  /** If the guard never holds, every pair is kept or dropped whole. */
  lemma PairsWholeWithoutGuard(ms: seq<Message>, direct: set<nat>, p: set<nat>, max: nat, a: nat, t: nat)
    requires LeastClosed(ms, direct, p) && Pair(ms, a, t)
    requires forall i :: 0 <= i < |ms| ==> !BudgetFits(ms, p, max, i)
    ensures a in KeptIndices(ms, p, max) <==> t in KeptIndices(ms, p, max)
  {
    PairSplitExactly(ms, direct, p, max, a, t);
  }

  // ---- the same, from what may not be dropped -------------------------------------------------------------------

  /** The first index at which what may not be dropped and the rest fit the budget, or the end of the
      window: `Truncation.FindFirstFit` computes it without running the loop. */
  predicate FirstFit(ms: seq<Message>, p: set<nat>, max: nat, g: nat) {
    Truncation.FirstFit(Items(ms, p), max, g)
  }

  /** The guard never holds exactly when they never fit. */
  lemma GuardNeverExactly(ms: seq<Message>, p: set<nat>, max: nat, g: nat)
    requires FirstFit(ms, p, max, g)
    ensures (forall i :: 0 <= i < |ms| ==> !BudgetFits(ms, p, max, i)) <==> g == |ms|
  {
    if g < |ms| {
      Truncation.GuardStartsAt(Items(ms, p), max, g, g);
      assert BudgetFits(ms, p, max, g);
    } else {
      forall i | 0 <= i < |ms| ensures !BudgetFits(ms, p, max, i) {
        Truncation.GuardStartsAt(Items(ms, p), max, g, i);
      }
    }
  }

  lemma {:induction false} NeverFits(ms: seq<Message>, p: set<nat>, max: nat)
    requires Truncation.Quarter(Truncation.Held(Items(ms, p), |ms|)) > max
    ensures forall i :: 0 <= i < |ms| ==> !BudgetFits(ms, p, max, i)
  {
    Truncation.HeldTooLarge(Items(ms, p), max);
    GuardNeverExactly(ms, p, max, |ms|);
  }

  lemma OnlyProtectedKept(ms: seq<Message>, p: set<nat>, max: nat)
    requires forall i :: 0 <= i < |ms| ==> !BudgetFits(ms, p, max, i)
    ensures forall j :: 0 <= j < |ms| ==> (j in KeptIndices(ms, p, max) <==> j in p || !LowSignal(ms[j]))
  {
    KeptExactly(ms, p, max);
  }

  /** What may not be dropped alone exceeds the budget: then nothing else survives, and every pair is
      kept or dropped whole. */
  lemma ProtectedTooLarge(ms: seq<Message>, direct: set<nat>, p: set<nat>, max: nat, a: nat, t: nat)
    requires LeastClosed(ms, direct, p) && Pair(ms, a, t)
    requires Truncation.Quarter(Truncation.Held(Items(ms, p), |ms|)) > max
    ensures forall j :: 0 <= j < |ms| ==> (j in KeptIndices(ms, p, max) <==> j in p || !LowSignal(ms[j]))
    ensures a in KeptIndices(ms, p, max) <==> t in KeptIndices(ms, p, max)
  {
    NeverFits(ms, p, max);
    OnlyProtectedKept(ms, p, max);
    PairsWholeWithoutGuard(ms, direct, p, max, a, t);
  }

  /** With one token to spare at the first fit, where a pair lies decides: unprotected messages before
      it are dropped and those from it on are kept, so a pair is split exactly when it lies on both
      sides. */
  lemma PairByPosition(ms: seq<Message>, direct: set<nat>, p: set<nat>, max: nat, g: nat, a: nat, t: nat)
    requires LeastClosed(ms, direct, p) && Pair(ms, a, t) && a !in p && FirstFit(ms, p, max, g)
    requires
      var items := Items(ms, p);
      g == |ms| || (max > 0 && Truncation.Fits(items, max - 1, Truncation.Held(items, g), g))
    ensures (a in KeptIndices(ms, p, max) <==> g <= a) && (t in KeptIndices(ms, p, max) <==> g <= t)
  {
    assert Link(ms, a, t) && Link(ms, t, a);
    KeptExactly(ms, p, max);
    Truncation.GuardFrom(Items(ms, p), max, g, a);
    Truncation.GuardFrom(Items(ms, p), max, g, t);
    assert LowSignal(ms[a]) && LowSignal(ms[t]);
  }

  // ---- stage 4: coalescing --------------------------------------------------------------------------------------

  predicate Mergeable(prev: Message, m: Message) {
    && prev.role.ToolRole? && m.role.ToolRole?
    && prev.content.Plain? && m.content.Plain?
    && !HasCallId(prev) && !HasCallId(m)
  }

  function Merged(prev: Message, m: Message): Message
    requires Mergeable(prev, m)
  {
    prev.(content := Plain(prev.content.text + "\n" + m.content.text))
  }

  function Coalesced(ms: seq<Message>): seq<Message> {
    if ms == [] then []
    else
      var c, m := Coalesced(ms[..|ms| - 1]), ms[|ms| - 1];
      if c != [] && Mergeable(c[|c| - 1], m) then c[..|c| - 1] + [Merged(c[|c| - 1], m)] else c + [m]
  }

  lemma CoalesceNext(ms: seq<Message>, i: nat)
    requires i < |ms|
    ensures
      var c := Coalesced(ms[..i]);
      Coalesced(ms[..i + 1]) == if c != [] && Mergeable(c[|c| - 1], ms[i])
                                then c[..|c| - 1] + [Merged(c[|c| - 1], ms[i])] else c + [ms[i]]
  {
    assert ms[..i + 1][..i] == ms[..i];
  }

  method Coalesce(ms: seq<Message>) returns (coalesced: seq<Message>, applied: bool)
    ensures coalesced == Coalesced(ms)
    ensures applied <==> |coalesced| < |ms|
  {
    coalesced, applied := [], false;
    for i := 0 to |ms|
      invariant coalesced == Coalesced(ms[..i])
      invariant |coalesced| <= i && (applied <==> |coalesced| < i)
    {
      CoalesceNext(ms, i);
      var last := |coalesced| - 1;
      if coalesced != [] && Mergeable(coalesced[last], ms[i]) {
        applied := true;
        coalesced := coalesced[..last] + [Merged(coalesced[last], ms[i])];
      } else {
        coalesced := coalesced + [ms[i]];
      }
    }
    assert ms[..|ms|] == ms;
  }

  // what coalescing leaves, by position

  predicate PlainTool(m: Message) {
    m.role.ToolRole? && m.content.Plain? && (m.callId.None? || m.callId.value == "")
  }

  /** The texts of plain messages, one a line. */
  function Lines(group: seq<Message>): string
    requires group != [] && forall k :: 0 <= k < |group| ==> group[k].content.Plain?
  {
    var last := group[|group| - 1].content.text;
    if |group| == 1 then last else Lines(group[..|group| - 1]) + "\n" + last
  }

  /** A message that was left alone, or several plain tool messages without call ids made into one. */
  predicate Joins(group: seq<Message>, m: Message) {
    group != [] &&
    if |group| == 1 then m == group[0]
    else
      && (forall k :: 0 <= k < |group| ==> PlainTool(group[k]))
      && m == Message(group[0].role, Plain(Lines(group)), group[0].callId)
  }

  /** Where a group ends: where the next one starts. */
  function GroupEnd(cuts: seq<nat>, n: nat, j: nat): nat
    requires j < |cuts|
  {
    if j + 1 < |cuts| then cuts[j + 1] else n
  }

  /** `cuts` are the starts of consecutive groups that together are the whole window. */
  predicate Cuts(ms: seq<Message>, cuts: seq<nat>) {
    && (cuts == [] <==> ms == []) && (cuts != [] ==> cuts[0] == 0)
    && forall j :: 0 <= j < |cuts| ==> cuts[j] < GroupEnd(cuts, |ms|, j) <= |ms|
  }

  predicate Grouped(ms: seq<Message>, c: seq<Message>, cuts: seq<nat>) {
    && Cuts(ms, cuts) && |cuts| == |c|
    && forall j :: 0 <= j < |c| ==> Joins(ms[cuts[j]..GroupEnd(cuts, |ms|, j)], c[j])
  }

  /** No two neighbours are left that could be merged. */
  predicate Settled(c: seq<Message>) {
    forall j :: 0 <= j < |c| - 1 ==> !(PlainTool(c[j]) && PlainTool(c[j + 1]))
  }

  lemma JoinsMore(group: seq<Message>, m: Message, next: Message)
    requires Joins(group, m) && PlainTool(m) && PlainTool(next)
    ensures Mergeable(m, next) && Joins(group + [next], Merged(m, next))
  {
    assert (group + [next])[..|group|] == group;
    if |group| == 1 { assert Lines(group) == group[0].content.text; }
  }

  lemma GroupsStay(ms: seq<Message>, c: seq<Message>, cuts: seq<nat>, m: Message, more: seq<nat>, j: nat)
    requires Grouped(ms, c, cuts) && j < |c| && cuts <= more
    requires GroupEnd(more, |ms| + 1, j) == GroupEnd(cuts, |ms|, j)
    ensures Joins((ms + [m])[more[j]..GroupEnd(more, |ms| + 1, j)], c[j])
  {
    var from, end := cuts[j], GroupEnd(cuts, |ms|, j);
    assert (ms + [m])[from..end] == ms[from..end];
  }

  lemma GroupAdded(ms: seq<Message>, c: seq<Message>, cuts: seq<nat>, m: Message, n: nat)
    requires Grouped(ms, c, cuts) && n == |ms|
    ensures Grouped(ms + [m], c + [m], cuts + [n])
  {
    var all, more := ms + [m], cuts + [n];
    forall j | 0 <= j < |c| + 1 ensures Joins(all[more[j]..GroupEnd(more, |all|, j)], (c + [m])[j]) {
      if j < |c| { GroupsStay(ms, c, cuts, m, more, j); } else { assert all[n..n + 1] == [m]; }
    }
  }

  lemma LastExtended(ms: seq<Message>, c: seq<Message>, cuts: seq<nat>, m: Message, n: nat)
    requires Grouped(ms, c, cuts) && n + 1 == |c| && PlainTool(c[n]) && PlainTool(m)
    ensures Mergeable(c[n], m) && Joins((ms + [m])[cuts[n]..|ms| + 1], Merged(c[n], m))
  {
    JoinsMore(ms[cuts[n]..|ms|], c[n], m);
    assert (ms + [m])[cuts[n]..|ms| + 1] == ms[cuts[n]..|ms|] + [m];
  }

  lemma CutsLast(ms: seq<Message>, cuts: seq<nat>, m: Message)
    requires Cuts(ms, cuts) && ms != []
    ensures Cuts(ms + [m], cuts)
  {
  }

  lemma ExtendedAt(ms: seq<Message>, c: seq<Message>, cuts: seq<nat>, m: Message, merged: seq<Message>, j: nat,
                   all: seq<Message>, end: nat)
    requires Grouped(ms, c, cuts) && c != [] && PlainTool(c[|c| - 1]) && PlainTool(m) && j < |c|
    requires Mergeable(c[|c| - 1], m) && merged == c[..|c| - 1] + [Merged(c[|c| - 1], m)]
    requires all == ms + [m] && end == |all|
    ensures cuts[j] < GroupEnd(cuts, end, j) <= end && Joins(all[cuts[j]..GroupEnd(cuts, end, j)], merged[j])
  {
    assert end == |ms| + 1;
    if j + 1 < |c| {
      GroupsStay(ms, c, cuts, m, cuts, j);
    } else {
      LastExtended(ms, c, cuts, m, j);
    }
  }

  lemma GroupExtended(ms: seq<Message>, c: seq<Message>, cuts: seq<nat>, m: Message, merged: seq<Message>)
    requires Grouped(ms, c, cuts) && c != [] && PlainTool(c[|c| - 1]) && PlainTool(m)
    requires Mergeable(c[|c| - 1], m) && merged == c[..|c| - 1] + [Merged(c[|c| - 1], m)]
    ensures Grouped(ms + [m], merged, cuts)
  {
    var all := ms + [m];
    var end := |all|;
    CutsLast(ms, cuts, m);
    assert |merged| == |c| == |cuts|;
    forall j: nat | j < |merged|
      ensures cuts[j] < GroupEnd(cuts, end, j) <= end && Joins(all[cuts[j]..GroupEnd(cuts, end, j)], merged[j])
    {
      ExtendedAt(ms, c, cuts, m, merged, j, all, end);
    }
  }

  lemma MergeableExactly(prev: Message, m: Message)
    ensures Mergeable(prev, m) <==> PlainTool(prev) && PlainTool(m)
  {
  }

  lemma SettledSnoc(c: seq<Message>, m: Message)
    requires Settled(c)
    ensures c == [] || !(PlainTool(c[|c| - 1]) && PlainTool(m)) ==> Settled(c + [m])
    ensures c != [] && Mergeable(c[|c| - 1], m) ==> Settled(c[..|c| - 1] + [Merged(c[|c| - 1], m)])
  {
    if c != [] && Mergeable(c[|c| - 1], m) {
      var n, merged := |c| - 1, c[..|c| - 1] + [Merged(c[|c| - 1], m)];
      forall j | 0 <= j < |merged| - 1 ensures !(PlainTool(merged[j]) && PlainTool(merged[j + 1])) {
        assert merged[j] == c[j] && PlainTool(c[n]);
        if j + 1 < n { assert merged[j + 1] == c[j + 1]; }
      }
    }
  }

  lemma CoalescesNext(front: seq<Message>, m: Message, ms: seq<Message>, cuts: seq<nat>, n: nat)
    returns (more: seq<nat>)
    requires Grouped(front, Coalesced(front), cuts) && Settled(Coalesced(front)) && ms == front + [m] && n == |front|
    ensures Grouped(ms, Coalesced(ms), more) && Settled(Coalesced(ms))
  {
    var c := Coalesced(front);
    assert ms[..n] == front;
    SettledSnoc(c, m);
    if c != [] { MergeableExactly(c[|c| - 1], m); }
    if c != [] && Mergeable(c[|c| - 1], m) {
      GroupExtended(front, c, cuts, m, c[..|c| - 1] + [Merged(c[|c| - 1], m)]);
      more := cuts;
    } else {
      GroupAdded(front, c, cuts, m, n);
      more := cuts + [n];
    }
  }

  /** What coalescing leaves are consecutive groups in order: messages as they were, and runs of plain
      tool messages without call ids with their texts a line each; no two neighbours could still merge. */
  lemma {:induction false} CoalescesGroups(ms: seq<Message>) returns (cuts: seq<nat>)
    ensures Grouped(ms, Coalesced(ms), cuts) && Settled(Coalesced(ms))
  {
    cuts := [];
    if ms != [] {
      var front, m := ms[..|ms| - 1], ms[|ms| - 1];
      cuts := CoalescesGroups(front);
      cuts := CoalescesNext(front, m, ms, cuts, |front|);
    }
  }

  lemma CoalesceOne(ms: seq<Message>, m: Message)
    requires Coalesced(ms) == ms && (m.role.ToolRole? ==> HasCallId(m))
    ensures Coalesced(ms + [m]) == ms + [m]
  {
    assert (ms + [m])[..|ms|] == ms;
  }

  /** With a call id on every tool message coalescing changes nothing. */
  lemma {:induction false} CoalesceIdentity(ms: seq<Message>)
    requires forall k :: 0 <= k < |ms| && ms[k].role.ToolRole? ==> HasCallId(ms[k])
    ensures Coalesced(ms) == ms
  {
    if ms != [] {
      var front, last := ms[..|ms| - 1], ms[|ms| - 1];
      CoalesceIdentity(front);
      CoalesceOne(front, last);
      assert front + [last] == ms;
    }
  }

  lemma MergeSize(ms: seq<Message>, m: Message)
    requires ms != [] && Mergeable(ms[|ms| - 1], m)
    ensures Chars(ms[..|ms| - 1] + [Merged(ms[|ms| - 1], m)]) == Chars(ms) + 1 + Size(m)
  {
    var front, last := ms[..|ms| - 1], ms[|ms| - 1];
    assert ms == front + [last];
    CharsSnoc(front, last);
    CharsSnoc(front, Merged(last, m));
  }

  /** Coalescing loses no text: each merge adds one newline and removes one message. */
  predicate SizeKept(ms: seq<Message>) {
    |Coalesced(ms)| <= |ms| && Chars(Coalesced(ms)) + |Coalesced(ms)| == Chars(ms) + |ms|
  }

  lemma SizeKeptNone(ms: seq<Message>)
    requires ms == []
    ensures SizeKept(ms)
  {
  }

  lemma SizeKeptMore(ms: seq<Message>, m: Message, all: seq<Message>)
    requires SizeKept(ms) && all == ms + [m]
    ensures SizeKept(all)
  {
    var c := Coalesced(ms);
    assert all[..|ms|] == ms;
    CharsSnoc(ms, m);
    if c != [] && Mergeable(c[|c| - 1], m) { MergeSize(c, m); } else { CharsSnoc(c, m); }
  }

  lemma {:induction false} CoalesceSize(ms: seq<Message>)
    ensures SizeKept(ms)
  {
    if ms == [] {
      SizeKeptNone(ms);
    } else {
      var front, last := ms[..|ms| - 1], ms[|ms| - 1];
      CoalesceSize(front);
      SizeKeptMore(front, last, ms);
    }
  }

  // ---- the whole compaction -------------------------------------------------------------------------------------

  datatype Stage = ToolResultCondense | FifoTruncate | CoalesceStage

  /** What stages 1 and 3 leave when the protected set of the condensed window is `p`. */
  function KeptWith(o: Oracles, ms: seq<Message>, cfg: Config, p: set<nat>): seq<Message> {
    var work := Stage1(o, ms, cfg.toolResultMaxChars);
    if Tokens(work) > cfg.maxContextTokens then Truncated(work, p, cfg.maxContextTokens) else work
  }

  function CompactedWith(o: Oracles, ms: seq<Message>, cfg: Config, p: set<nat>): seq<Message> {
    Coalesced(KeptWith(o, ms, cfg, p))
  }

  function When(applied: bool, stage: Stage): seq<Stage> {
    if applied then [stage] else []
  }

  ghost predicate IsProtected(o: Oracles, ms: seq<Message>, cfg: Config, p: set<nat>) {
    var work := Stage1(o, ms, cfg.toolResultMaxChars);
    LeastClosed(work, Direct(o, work, cfg.keepRecentTurns), p)
  }

  /** Stage 3, which runs only over the budget. */
  method DropOldest(o: Oracles, work: seq<Message>, cfg: Config) returns (kept: seq<Message>, ghost p: set<nat>)
    ensures Tokens(work) > cfg.maxContextTokens ==> LeastClosed(work, Direct(o, work, cfg.keepRecentTurns), p)
    ensures kept == if Tokens(work) > cfg.maxContextTokens then Truncated(work, p, cfg.maxContextTokens) else work
  {
    kept, p := work, {};
    var size := EstimateTokens(work);
    if size > cfg.maxContextTokens {
      var direct := DirectlyProtected(o, work, cfg.keepRecentTurns);
      var protected, _ := Protect(work, direct);
      var survivors, _ := Truncate(work, protected, cfg.maxContextTokens);
      kept, p := survivors, protected;
    }
  }

  /** `compactMessages`. */
  method CompactMessages(o: Oracles, ms: seq<Message>, cfg: Config)
    returns (out: seq<Message>, compacted: bool, before: nat, after: nat, stages: seq<Stage>, ghost p: set<nat>)
    ensures before == Tokens(ms) && after == Tokens(out) && (compacted <==> stages != [])
    ensures Tokens(Stage1(o, ms, cfg.toolResultMaxChars)) > cfg.maxContextTokens ==> IsProtected(o, ms, cfg, p)
    ensures out == CompactedWith(o, ms, cfg, p)
    // each stage is named, in order, exactly when it changed something
    ensures stages
         == When(exists k :: 0 <= k < |ms| && Oversized(ms[k], cfg.toolResultMaxChars), ToolResultCondense)
          + When(|KeptWith(o, ms, cfg, p)| < |ms|, FifoTruncate)
          + When(|out| < |KeptWith(o, ms, cfg, p)|, CoalesceStage)
  {
    before := EstimateTokens(ms);
    var work := Stage1(o, ms, cfg.toolResultMaxChars);
    stages := When(exists k :: 0 <= k < |ms| && Oversized(ms[k], cfg.toolResultMaxChars), ToolResultCondense);
    var kept;
    kept, p := DropOldest(o, work, cfg);
    stages := stages + When(|kept| < |work|, FifoTruncate);
    var merged;
    out, merged := Coalesce(kept);
    stages := stages + When(merged, CoalesceStage);
    after := EstimateTokens(out);
    compacted := stages != [];
  }

  /** Nothing is lost in coalescing: each merge adds a newline and removes a message. So what fitted
      before it exceeds the budget by no more than the merges. */
  lemma CompactionSize(o: Oracles, ms: seq<Message>, cfg: Config, p: set<nat>)
    ensures
      var kept, out := KeptWith(o, ms, cfg, p), CompactedWith(o, ms, cfg, p);
      && |out| <= |kept| && Chars(out) == Chars(kept) + (|kept| - |out|)
      && (Tokens(kept) <= cfg.maxContextTokens ==> Chars(out) <= 4 * cfg.maxContextTokens + (|kept| - |out|))
  {
    CoalesceSize(KeptWith(o, ms, cfg, p));
  }

  lemma DirectCoversSignal(o: Oracles, ms: seq<Message>, keep: nat, p: set<nat>)
    requires LeastClosed(ms, Direct(o, ms, keep), p)
    ensures CoversSignal(ms, p)
    ensures forall j :: 0 <= j < |ms| && DirectAt(o, ms, keep, j) ==> j in p
  {
    forall j: nat | j < |ms| && DirectAt(o, ms, keep, j) ensures j in p { assert j in Direct(o, ms, keep); }
    forall j: nat | j < |ms| && !LowSignal(ms[j]) ensures j in p { assert DirectAt(o, ms, keep, j); }
  }

  /** The window compaction returns, when every tool message carries a call id, is the condensed
      window itself, or a subsequence of it that keeps every protected message and either fits the
      budget or is exactly the protected set. */
  lemma CompactionBound(o: Oracles, ms: seq<Message>, cfg: Config, p: set<nat>)
    requires IsProtected(o, ms, cfg, p)
    requires forall k :: 0 <= k < |ms| && ms[k].role.ToolRole? ==> HasCallId(ms[k])
    ensures
      var work := Stage1(o, ms, cfg.toolResultMaxChars);
      var ks := KeptIndices(work, p, cfg.maxContextTokens);
      var out := CompactedWith(o, ms, cfg, p);
      if Tokens(work) <= cfg.maxContextTokens then out == work
      else
        && Truncation.InRange(|work|, ks) && Truncation.StrictlyIncreasing(ks) && out == Truncation.Pick(work, ks)
        && (forall j :: j in p && j < |work| ==> j in ks)
        && (Tokens(out) <= cfg.maxContextTokens || forall j :: j in ks <==> j in p && j < |work|)
  {
    var work := Stage1(o, ms, cfg.toolResultMaxChars);
    DirectCoversSignal(o, work, cfg.keepRecentTurns, p);
    TruncationBound(work, p, cfg.maxContextTokens);
    KeptExactly(work, p, cfg.maxContextTokens);
    NothingCoalesced(o, ms, cfg, p);
  }

  lemma NothingCoalesced(o: Oracles, ms: seq<Message>, cfg: Config, p: set<nat>)
    requires forall k :: 0 <= k < |ms| && ms[k].role.ToolRole? ==> HasCallId(ms[k])
    ensures CompactedWith(o, ms, cfg, p) == KeptWith(o, ms, cfg, p)
  {
    var work := Stage1(o, ms, cfg.toolResultMaxChars);
    var ks := KeptIndices(work, p, cfg.maxContextTokens);
    KeptExactly(work, p, cfg.maxContextTokens);
    Truncation.PickAt(work, ks);
    assert forall k :: 0 <= k < |work| && work[k].role.ToolRole? ==> HasCallId(work[k]);
    CoalesceIdentity(KeptWith(o, ms, cfg, p));
  }

  /** Every system, user and recent message, and every failure that stage 1 left alone, survives
      verbatim whatever the budget. */
  lemma EvidenceSurvives(o: Oracles, ms: seq<Message>, cfg: Config, p: set<nat>, j: nat)
    requires IsProtected(o, ms, cfg, p) && j < |ms| && !Oversized(ms[j], cfg.toolResultMaxChars)
    requires
      var work := Stage1(o, ms, cfg.toolResultMaxChars);
      || ms[j].role.SystemRole? || ms[j].role.UserRole? || |Followers(ms, j)| < cfg.keepRecentTurns
      || (ms[j].role.ToolRole? && o.failure(ContentText(ms[j].content)))
    ensures
      var work := Stage1(o, ms, cfg.toolResultMaxChars);
      var ks := KeptIndices(work, p, cfg.maxContextTokens);
      j in ks && ms[j] in Truncated(work, p, cfg.maxContextTokens)
  {
    var work, max := Stage1(o, ms, cfg.toolResultMaxChars), cfg.maxContextTokens;
    assert work[j] == ms[j];
    assert Followers(work, j) == Followers(ms, j);
    RecentExactly(work, cfg.keepRecentTurns, j);
    DirectCoversSignal(o, work, cfg.keepRecentTurns, p);
    KeptExactly(work, p, max);
    var ks := KeptIndices(work, p, max);
    Truncation.PickAt(work, ks);
    assert Survives(work, p, max, j);
    assert j in ks;
    var i :| 0 <= i < |ks| && ks[i] == j;
    assert Truncation.Pick(work, ks)[i] == ms[j];
  }

  // ---- where the documentation goes further than the code -------------------------------------------------------

  lemma CharsOfTwo(a: Message, b: Message)
    ensures Chars([a, b]) == Size(a) + Size(b)
  {
    assert [] + [a] == [a] && [a] + [b] == [a, b];
    CharsSnoc([], a);
    CharsSnoc([a], b);
  }

  lemma CharsOfThree(a: Message, b: Message, c: Message)
    ensures Chars([a, b, c]) == Size(a) + Size(b) + Size(c)
  {
    assert [a, b] + [c] == [a, b, c];
    CharsOfTwo(a, b);
    CharsSnoc([a, b], c);
  }

  lemma WitnessSizes(a: Message, b: Message, c: Message)
    requires Size(a) == 8 && Size(b) == 4 && Size(c) == 4
    ensures Tokens([a, b, c]) == 4 && Tokens([b, c]) == 2 && Tokens([]) == 0
  {
    CharsOfThree(a, b, c);
    CharsOfTwo(b, c);
  }

  lemma CallSize(call: Message)
    requires call.content == Blocks([ToolUse("c", "12345678", "")])
    ensures Size(call) == 8
  {
    var b := call.content.blocks;
    assert b[..0] == [] && BlocksText([]) == "";
    assert BlockText(b[0]) == "12345678" + "";
    assert BlocksText(b) == "" + ("12345678" + "");
    assert |"12345678"| == 8;
  }

  /** A window of one call, its result and a user message, of 8, 4 and 4 characters. */
  predicate CallWindow(ms: seq<Message>) {
    && |ms| == 3
    && ms[0].role.AssistantRole? && ms[0].content == Blocks([ToolUse("c", "12345678", "")])
    && ms[1].role.ToolRole? && ms[1].content.Plain? && ms[1].callId == Some("c") && Size(ms[1]) == 4
    && ms[2].role.UserRole? && Size(ms[2]) == 4
  }

  lemma WindowPair(ms: seq<Message>)
    requires CallWindow(ms)
    ensures Pair(ms, 0, 1) && (forall j: nat :: !Link(ms, 2, j))
  {
    assert ms[0].content.blocks[0].callId == "c";
    assert Issues(ms[0], "c") && Answers(ms[1], "c");
    IssuerIs(ms, "c");
    AnswererIs(ms, "c");
  }

  /** With no failures and no recent window only the user message is protected. */
  lemma WindowProtected(o: Oracles, ms: seq<Message>)
    requires CallWindow(ms) && !o.failure(ContentText(ms[1].content))
    ensures Direct(o, ms, 0) == {2} && LeastClosed(ms, {2}, {2})
  {
    WindowPair(ms);
    assert DirectAt(o, ms, 0, 2) && !DirectAt(o, ms, 0, 0) && !DirectAt(o, ms, 0, 1);
  }

  lemma WindowSizes(ms: seq<Message>)
    requires CallWindow(ms)
    ensures Size(ms[0]) == 8 && Tokens(ms) == 4 && Tokens(ms[1..]) == 2
  {
    CallSize(ms[0]);
    assert ms == [ms[0], ms[1], ms[2]] && ms[1..] == [ms[1], ms[2]];
    WitnessSizes(ms[0], ms[1], ms[2]);
  }

  /** The whole window does not fit two tokens, the last two messages do. */
  lemma WindowTruncated(ms: seq<Message>)
    requires CallWindow(ms)
    ensures Truncated(ms, {2}, 2) == [ms[1], ms[2]]
  {
    WindowSizes(ms);
    var items := Items(ms, {2});
    assert Truncation.Rest(items, 3) == 0;
    assert Truncation.Rest(items, 2) == 4;
    assert Truncation.Rest(items, 1) == 8;
    assert Truncation.Rest(items, 0) == 16;
    assert !BudgetFits(ms, {2}, 2, 0);
    assert Truncation.Kept(items, 2, 1) == 0 && BudgetFits(ms, {2}, 2, 1);
    assert Truncation.Select(ms, Alive(ms, {2}, 2), 1) == [];
    assert Truncation.Select(ms, Alive(ms, {2}, 2), 2) == [ms[1]];
  }

  /** The documentation's promise that pairs are always atomic fails at the point where the loop
      stops: compacting any such window to two tokens drops the call and keeps its result. */
  lemma SplitPairWitness(o: Oracles, ms: seq<Message>, p: set<nat>)
    requires CallWindow(ms) && !o.failure(ContentText(ms[1].content)) && IsProtected(o, ms, Config(2, 0, 8), p)
    ensures Pair(ms, 0, 1) && CompactedWith(o, ms, Config(2, 0, 8), p) == [ms[1], ms[2]]
  {
    var cfg := Config(2, 0, 8);
    WindowPair(ms);
    WindowProtected(o, ms);
    WindowSizes(ms);
    assert Stage1(o, ms, cfg.toolResultMaxChars) == ms;
    LeastIsUnique(ms, {2}, p, {2});
    WindowTruncated(ms);
    CoalesceIdentity([ms[1], ms[2]]);
  }

  /** And `compactMessages` returns just that. */
  method SplitPairRun() returns (ms: seq<Message>, out: seq<Message>)
    ensures CallWindow(ms) && Pair(ms, 0, 1) && out == [ms[1], ms[2]]
  {
    var o := Oracles(s => "", s => false, s => false, n => "");
    var call := Message(AssistantRole, Blocks([ToolUse("c", "12345678", "")]), None);
    ms := [call, Message(ToolRole, Plain("1234"), Some("c")), Message(UserRole, Plain("1234"), None)];
    WindowSizes(ms);
    assert Stage1(o, ms, 8) == ms;
    var compacted, before, after, stages;
    ghost var p;
    out, compacted, before, after, stages, p := CompactMessages(o, ms, Config(2, 0, 8));
    SplitPairWitness(o, ms, p);
  }
}

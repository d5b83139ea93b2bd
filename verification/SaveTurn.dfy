/** Prompt assembly and the SAVE step of a turn: `build_messages` in erza/agent/context.py,
    `_state_build` and `_state_save` in erza/agent/turn_orchestrator.py, and
    `_persist_user_message_early` and `_save_turn` in erza/agent/session_turn.py. */
module SaveTurn {
  import opened Messages
  import opened TextOps
  import opened SessionTurn

  // ----- What is stored of one entry -----

  function ImagePlaceholder(path: string): string {
    if path != "" then "[image: " + path + "]" else "[image]"
  }

  predicate RuntimeBlock(b: Block) {
    b.TextBlock? && RUNTIME_CONTEXT_TAG <= b.text
  }

  function SanitizedBlock(b: Block, bound: Option<int>): Block {
    match b
    case ImageBlock(inline, path) => if inline then TextBlock(ImagePlaceholder(path)) else b
    case TextBlock(text) => if bound.Some? then TextBlock(Truncate(text, bound.value)) else b
    case OtherBlock(_) => b
  }

  /** Volatile payloads are replaced; `bound` cuts long text, `dropRuntime` removes context blocks. */
  function Sanitized(blocks: seq<Block>, bound: Option<int>, dropRuntime: bool): seq<Block> {
    if blocks == [] then []
    else
      var front := Sanitized(blocks[..|blocks| - 1], bound, dropRuntime);
      var last := blocks[|blocks| - 1];
      if dropRuntime && RuntimeBlock(last) then front else front + [SanitizedBlock(last, bound)]
  }

  predicate Empty(c: Content) {
    match c
    case NoContent => true
    case Text(text) => text == ""
    case Blocks(blocks) => blocks == []
  }

  /** User text in front of the first runtime-context tag. */
  function BeforeTag(text: string): string
    requires FindFrom(text, RUNTIME_CONTEXT_TAG, 0) >= 0
  {
    RStrip(text[..FindFrom(text, RUNTIME_CONTEXT_TAG, 0)])
  }

  /** The content that is stored, or none when the whole entry is left out. */
  function PersistedContent(m: Message, maxChars: int): Option<Content> {
    match m.role
    case Assistant => if Empty(m.content) && m.toolCalls == [] then None else Some(m.content)
    case Tool =>
      (match m.content
       case Text(text) => Some(Text(Truncate(text, maxChars)))
       case Blocks(blocks) =>
         var kept := Sanitized(blocks, Some(maxChars), false);
         if kept == [] then None else Some(Blocks(kept))
       case NoContent => Some(NoContent))
    case User =>
      (match m.content
       case Text(text) =>
         if FindFrom(text, RUNTIME_CONTEXT_TAG, 0) < 0 then Some(m.content)
         else if BeforeTag(text) == "" then None
         else Some(Text(BeforeTag(text)))
       case Blocks(blocks) =>
         var kept := Sanitized(blocks, None, true);
         if kept == [] then None else Some(Blocks(kept))
       case NoContent => Some(NoContent))
    case _ => Some(m.content)
  }

  function Persisted(m: Message, maxChars: int, now: nat): seq<Message> {
    match PersistedContent(m, maxChars)
    case None => []
    case Some(content) => [Stamped(m.(content := content), now)]
  }

  function PersistedAll(ms: seq<Message>, maxChars: int, now: nat): seq<Message> {
    if ms == [] then []
    else PersistedAll(ms[..|ms| - 1], maxChars, now) + Persisted(ms[|ms| - 1], maxChars, now)
  }

  /** The latency goes to the last assistant entry of the turn, if there is one. */
  function WithLatency(ms: seq<Message>, latency: nat): (r: seq<Message>)
    ensures |r| == |ms|
  {
    if ms == [] then []
    else
      var front, last := ms[..|ms| - 1], ms[|ms| - 1];
      if last.role.Assistant? then front + [last.(stamp := last.stamp.(latencyMs := Some(latency)))]
      else WithLatency(front, latency) + [last]
  }

  function TurnEntries(ms: seq<Message>, maxChars: int, latency: Option<nat>, now: nat): seq<Message> {
    var stored := PersistedAll(ms, maxChars, now);
    if latency.Some? then WithLatency(stored, latency.value) else stored
  }

  /** `messages[skip:]` */
  function From(ms: seq<Message>, skip: nat): seq<Message> {
    if skip <= |ms| then ms[skip..] else []
  }

  method SanitizePersistedBlocks(content: seq<Block>, maxChars: int, shouldTruncate: bool, dropRuntime: bool)
    returns (filtered: seq<Block>)
    ensures filtered == Sanitized(content, if shouldTruncate then Some(maxChars) else None, dropRuntime)
  {
    filtered := [];
    ghost var bound := if shouldTruncate then Some(maxChars) else None;
    for k := 0 to |content|
      invariant filtered == Sanitized(content[..k], bound, dropRuntime)
    {
      assert content[..k + 1][..k] == content[..k];
      var block := content[k];
      if dropRuntime && RuntimeBlock(block) {
        continue;
      }
      match block {
        case ImageBlock(inline, path) =>
          filtered := filtered + [if inline then TextBlock(ImagePlaceholder(path)) else block];
        case TextBlock(text) =>
          var kept := text;
          if shouldTruncate && |text| > maxChars {
            kept := Truncate(text, maxChars);
          }
          filtered := filtered + [TextBlock(kept)];
        case OtherBlock(_) =>
          filtered := filtered + [block];
      }
    }
    assert content[..|content|] == content;
  }

  /** One round of the loop of `_save_turn`: the entry to append, if any. */
  method PersistEntry(m: Message, maxChars: int, now: nat) returns (entry: seq<Message>)
    ensures entry == Persisted(m, maxChars, now)
  {
    var content := m.content;
    if m.role.Assistant? && Empty(content) && m.toolCalls == [] {
      return [];
    }
    if m.role.Tool? {
      if content.Text? && |content.text| > maxChars {
        content := Text(Truncate(content.text, maxChars));
      } else if content.Blocks? {
        var kept := SanitizePersistedBlocks(content.blocks, maxChars, true, false);
        if kept == [] {
          return [];
        }
        content := Blocks(kept);
      }
    } else if m.role.User? {
      if content.Text? {
        var tagPos := FindFrom(content.text, RUNTIME_CONTEXT_TAG, 0);
        if tagPos >= 0 {
          var before := RStrip(content.text[..tagPos]);
          if before == "" {
            return [];
          }
          content := Text(before);
        }
      } else if content.Blocks? {
        var kept := SanitizePersistedBlocks(content.blocks, maxChars, false, true);
        if kept == [] {
          return [];
        }
        content := Blocks(kept);
      }
    }
    entry := [Stamped(m.(content := content), now)];
  }

  /** Index of the last assistant entry, or -1. */
  function LastAssistant(ms: seq<Message>): (k: int)
    ensures -1 <= k < |ms|
    ensures k >= 0 ==> ms[k].role.Assistant?
  {
    if ms == [] then -1
    else if ms[|ms| - 1].role.Assistant? then |ms| - 1
    else LastAssistant(ms[..|ms| - 1])
  }

  lemma {:induction false} LatencyAtLast(ms: seq<Message>, latency: nat)
    ensures var k := LastAssistant(ms);
            WithLatency(ms, latency) ==
            if k < 0 then ms else ms[k := ms[k].(stamp := ms[k].stamp.(latencyMs := Some(latency)))]
  {
    if ms != [] && !ms[|ms| - 1].role.Assistant? { LatencyAtLast(ms[..|ms| - 1], latency); }
  }

  lemma {:induction false} PersistedAllSnoc(ms: seq<Message>, k: nat, maxChars: int, now: nat)
    requires k < |ms|
    ensures PersistedAll(ms[..k + 1], maxChars, now) ==
            PersistedAll(ms[..k], maxChars, now) + Persisted(ms[k], maxChars, now)
  {
    assert ms[..k + 1][..k] == ms[..k];
  }

  lemma {:induction false} LastAssistantSnoc(stored: seq<Message>, entry: seq<Message>)
    requires |entry| <= 1
    ensures LastAssistant(stored + entry) ==
            if entry != [] && entry[0].role.Assistant? then |stored| else LastAssistant(stored)
  {
    if entry == [] {
      assert stored + entry == stored;
    } else {
      assert (stored + entry)[..|stored|] == stored;
    }
  }

  /** The loop over the new entries: what to append, and which of it is the last assistant entry. */
  method CollectEntries(rest: seq<Message>, maxChars: int, now: nat) returns (entries: seq<Message>, lastAssistant: int)
    ensures entries == PersistedAll(rest, maxChars, now)
    ensures lastAssistant == LastAssistant(entries)
  {
    entries, lastAssistant := [], -1;
    for k := 0 to |rest|
      invariant entries == PersistedAll(rest[..k], maxChars, now)
      invariant lastAssistant == LastAssistant(entries)
    {
      PersistedAllSnoc(rest, k, maxChars, now);
      var entry := PersistEntry(rest[k], maxChars, now);
      LastAssistantSnoc(entries, entry);
      if entry != [] && rest[k].role.Assistant? {
        lastAssistant := |entries|;
      }
      entries := entries + entry;
    }
    assert rest[..|rest|] == rest;
  }

  /** Appends the entries of a finished turn to the session. */
  method StoreTurn(session: Session, messages: seq<Message>, skip: nat, maxChars: int, latency: Option<nat>, now: nat)
    modifies session
    ensures session.Value() == old(session.Value()).(messages :=
              old(session.messages) + TurnEntries(From(messages, skip), maxChars, latency, now))
  {
    var entries, lastAssistant := CollectEntries(From(messages, skip), maxChars, now);
    session.messages := session.messages + entries;
    if latency.Some? {
      LatencyAtLast(entries, latency.value);
      if lastAssistant >= 0 {
        var k := |session.messages| - |entries| + lastAssistant;
        var m := session.messages[k];
        session.messages := session.messages[k := m.(stamp := m.stamp.(latencyMs := latency))];
      }
    }
  }

  // ----- Storing the user message before the turn runs -----

  datatype Inbound = Inbound(content: string, media: seq<string>)

  function MediaPaths(media: seq<string>): seq<string> {
    if media == [] then []
    else MediaPaths(media[..|media| - 1]) + if media[|media| - 1] != "" then [media[|media| - 1]] else []
  }

  /** The message is stored early when it has text or attachments. */
  predicate Storable(msg: Inbound) {
    !Blank(msg.content) || MediaPaths(msg.media) != []
  }

  function EarlyEntry(msg: Inbound, key: string, command: bool, now: nat): Message {
    Plain(User, Text(msg.content)).(stamp := Stamp(Some(now), None, key, command))
  }

  lemma {:induction false} MediaCounts(media: seq<string>)
    ensures MediaPaths(media) != [] <==> exists p :: p in media && p != ""
  {
    if media != [] {
      var front, last := media[..|media| - 1], media[|media| - 1];
      MediaCounts(front);
      assert last in media && (forall p | p in media :: p == last || p in front) && (forall p | p in front :: p in media);
    }
  }

  /** A message is stored early if and only if some character of it is no white space or some attachment has a
      path. */
  lemma {:induction false} StorableExactly(msg: Inbound)
    ensures Storable(msg) <==> (exists i :: 0 <= i < |msg.content| && !IsSpace(msg.content[i])) || exists p :: p in msg.media && p != ""
  {
    MediaCounts(msg.media);
  }

  method PersistUserMessageEarly(session: Session, msg: Inbound, command: bool, now: nat) returns (persisted: bool)
    modifies session
    ensures persisted == Storable(msg)
    ensures session.Value() ==
            if persisted
            then old(session.Value()).(messages := old(session.messages) + [EarlyEntry(msg, session.key, command, now)],
                                       pending := true)
            else old(session.Value())
  {
    var mediaPaths: seq<string> := [];
    for k := 0 to |msg.media|
      invariant mediaPaths == MediaPaths(msg.media[..k])
      invariant session.Value() == old(session.Value())
    {
      assert msg.media[..k + 1][..k] == msg.media[..k];
      if msg.media[k] != "" {
        mediaPaths := mediaPaths + [msg.media[k]];
      }
    }
    assert msg.media[..|msg.media|] == msg.media;
    if !Blank(msg.content) || mediaPaths != [] {
      session.messages := session.messages + [EarlyEntry(msg, session.key, command, now)];
      session.pending := true;
      return true;
    }
    persisted := false;
  }

  // ----- The prompt -----

  function ToBlocks(c: Content): seq<Block> {
    match c
    case NoContent => []
    case Text(text) => [TextBlock(text)]
    case Blocks(blocks) => blocks
  }

  function MergeContent(left: Content, right: Content): Content {
    if left.Text? && right.Text?
    then (if left.text != "" then Text(left.text + "\n\n" + right.text) else right)
    else Blocks(ToBlocks(left) + ToBlocks(right))
  }

  /** User text with its images, as sent to the model. */
  function UserContent(text: string, images: seq<Block>): Content {
    if images == [] then Text(text) else Blocks(images + [TextBlock(text)])
  }

  /** The runtime context is appended so that the user's own text stays a stable prefix. */
  function WithRuntime(user: Content, runtime: string): Content
    requires user.Text? || user.Blocks?
  {
    if user.Text? then Text(user.text + "\n\n" + runtime) else Blocks(user.blocks + [TextBlock(runtime)])
  }

  predicate EndsIn(history: seq<Message>, role: Role) {
    history != [] && history[|history| - 1].role == role
  }

  predicate EndsInUser(history: seq<Message>) { EndsIn(history, User) }

  /** The prompt of a turn: a trailing entry of the same role, if the history has one, absorbs the new one.
      The role is the assistant's when a subagent's answer starts the turn, and the user's otherwise. */
  function PromptAs(role: Role, system: Content, history: seq<Message>, current: Content): seq<Message> {
    var base := [Plain(System, system)] + history;
    var last := base[|base| - 1];
    if last.role == role
    then base[..|base| - 1] + [last.(content := MergeContent(last.content, current))]
    else base + [Plain(role, current)]
  }

  function Prompt(system: Content, history: seq<Message>, user: Content): seq<Message> {
    PromptAs(User, system, history, user)
  }

  method BuildMessages(role: Role, system: Content, history: seq<Message>, text: string, images: seq<Block>, runtime: string)
    returns (messages: seq<Message>)
    ensures messages == PromptAs(role, system, history, WithRuntime(UserContent(text, images), runtime))
  {
    var merged := WithRuntime(UserContent(text, images), runtime);
    messages := [Plain(System, system)] + history;
    var n := |messages| - 1;
    if messages[n].role == role {
      var last := messages[n];
      messages := messages[n := last.(content := MergeContent(last.content, merged))];
      return;
    }
    messages := messages + [Plain(role, merged)];
  }

  /** The number of leading prompt entries that SAVE leaves out. */
  function SaveSkip(history: seq<Message>, early: bool): nat {
    1 + |history| + if early then 1 else 0
  }

  // ----- What a turn leaves in the session -----

  /** The count left out is the length of the prompt exactly when one of two things holds and not both: the
      message was stored early, or the history ended in an entry of its role. */
  lemma {:induction false} SkipCountsPrompt(role: Role, system: Content, history: seq<Message>, current: Content, early: bool)
    requires role != System
    ensures SaveSkip(history, early) == |PromptAs(role, system, history, current)| <==> early != EndsIn(history, role)
  {
  }

  /** What SAVE is offered of a run that only appended `tail` to its prompt, in all four cases. */
  lemma {:induction false} OfferedAs(role: Role, system: Content, history: seq<Message>, current: Content, early: bool, tail: seq<Message>)
    requires role != System
    ensures From(PromptAs(role, system, history, current) + tail, SaveSkip(history, early)) ==
            if early && EndsIn(history, role) then (if tail == [] then [] else tail[1..])
            else if !early && !EndsIn(history, role) then [Plain(role, current)] + tail
            else tail
  {
  }

  lemma {:induction false} Offered(system: Content, history: seq<Message>, user: Content, early: bool, tail: seq<Message>)
    ensures From(Prompt(system, history, user) + tail, SaveSkip(history, early)) ==
            if early && EndsInUser(history) then (if tail == [] then [] else tail[1..])
            else if !early && !EndsInUser(history) then [Plain(User, user)] + tail
            else tail
  {
    OfferedAs(User, system, history, user, early, tail);
  }

  ghost predicate EndsWithAll(ms: seq<Message>, tail: seq<Message>) {
    |tail| <= |ms| && ms[|ms| - |tail|..] == tail
  }

  /** Every entry of the run is offered for storing unless the message that started the turn was stored early
      on top of a history that ends in an entry of its role; then the first entry of the run is lost. */
  lemma {:induction false} RunIsOfferedExactlyUnless(role: Role, system: Content, history: seq<Message>, current: Content, early: bool, tail: seq<Message>)
    requires role != System
    ensures EndsWithAll(From(PromptAs(role, system, history, current) + tail, SaveSkip(history, early)), tail)
            <==> !(early && EndsIn(history, role) && tail != [])
  {
    OfferedAs(role, system, history, current, early, tail);
  }

  lemma {:induction false} PersistedAllAppend(a: seq<Message>, b: seq<Message>, maxChars: int, now: nat)
    ensures PersistedAll(a + b, maxChars, now) == PersistedAll(a, maxChars, now) + PersistedAll(b, maxChars, now)
  {
    if b == [] {
      assert a + b == a;
    } else {
      assert (a + b)[..|a + b| - 1] == a + b[..|b| - 1];
      PersistedAllAppend(a, b[..|b| - 1], maxChars, now);
    }
  }

  lemma {:induction false} TagStart()
    ensures RUNTIME_CONTEXT_TAG != "" && !IsSpace(RUNTIME_CONTEXT_TAG[0])
  {
    assert RUNTIME_CONTEXT_TAG[0] == '[';
  }

  /** The tag cannot start inside leading whitespace. */
  lemma {:induction false} TagAfterBlank(blank: string, rest: string)
    requires Blank(blank)
    ensures FindFrom(blank + "\n\n" + RUNTIME_CONTEXT_TAG + rest, RUNTIME_CONTEXT_TAG, 0) == |blank| + 2
  {
    var s := blank + "\n\n" + RUNTIME_CONTEXT_TAG + rest;
    assert s[|blank| + 2..|blank| + 2 + |RUNTIME_CONTEXT_TAG|] == RUNTIME_CONTEXT_TAG;
    FindFromIsFirst(s, RUNTIME_CONTEXT_TAG, 0, |blank| + 2);
    var r := FindFrom(s, RUNTIME_CONTEXT_TAG, 0);
    assert s[r..r + |RUNTIME_CONTEXT_TAG|][0] == s[r];
    TagStart();
    assert s[|blank|] == '\n' && s[|blank| + 1] == '\n';
  }

  predicate OnlyNewlinesAndBlanks(s: string) {
    forall i | 0 <= i < |s| :: s[i] == '\n' || s[i] == ' '
  }

  /** A blank text-only message leaves nothing in the session exactly when it consists of newlines
      and blanks: SAVE strips no other whitespace (a tab, say) in front of the runtime context. */
  lemma {:induction false} BlankMessageLeavesNothingUnless(text: string, rest: string, maxChars: int, now: nat)
    requires Blank(text)
    ensures Persisted(Plain(User, WithRuntime(UserContent(text, []), RUNTIME_CONTEXT_TAG + rest)), maxChars, now) == []
            <==> OnlyNewlinesAndBlanks(text)
  {
    TagAfterBlank(text, rest);
    var s := text + "\n\n" + (RUNTIME_CONTEXT_TAG + rest);
    assert s == text + "\n\n" + RUNTIME_CONTEXT_TAG + rest;
    assert s[..|text| + 2] == text + "\n\n";
    RStripEmpty(text + "\n\n");
    if OnlyNewlinesAndBlanks(text + "\n\n") {
      forall i | 0 <= i < |text| ensures text[i] == '\n' || text[i] == ' ' {
        assert (text + "\n\n")[i] == text[i];
      }
    }
  }

  /** A message of a single tab is one that does leave an entry. */
  lemma {:induction false} TabIsStored(rest: string, maxChars: int, now: nat)
    ensures !Storable(Inbound("\t", []))
    ensures Persisted(Plain(User, WithRuntime(UserContent("\t", []), RUNTIME_CONTEXT_TAG + rest)), maxChars, now) != []
  {
    BlankMessageLeavesNothingUnless("\t", rest, maxChars, now);
    assert "\t"[0] == '\t';
  }

  /** What the session holds after BUILD, RUN and SAVE of a turn whose run appended `tail`. */
  function AfterTurn(before: seq<Message>, system: Content, history: seq<Message>, msg: Inbound, images: seq<Block>,
    runtime: string, tail: seq<Message>, key: string, maxChars: int, now: nat): seq<Message>
  {
    var early := Storable(msg);
    var user := WithRuntime(UserContent(msg.content, images), runtime);
    before
    + (if early then [EarlyEntry(msg, key, false, now)] else [])
    + PersistedAll(From(Prompt(system, history, user) + tail, SaveSkip(history, early)), maxChars, now)
  }

  /** For a history that does not end in a user entry: the old entries, the user message once, and
      the stored form of each entry of the run, once and in order. */
  lemma {:induction false} TurnIsStoredExactly(
    before: seq<Message>, system: Content, history: seq<Message>, msg: Inbound, images: seq<Block>, rest: string,
    tail: seq<Message>, key: string, maxChars: int, now: nat)
    requires !EndsInUser(history) && Storable(msg)
    ensures AfterTurn(before, system, history, msg, images, RUNTIME_CONTEXT_TAG + rest, tail, key, maxChars, now) ==
            before + [EarlyEntry(msg, key, false, now)] + PersistedAll(tail, maxChars, now)
    ensures var after := AfterTurn(before, system, history, msg, images, RUNTIME_CONTEXT_TAG + rest, tail, key, maxChars, now);
            && |after| > |before| && before <= after
            && after[|before|].role.User? && after[|before|].content == Text(msg.content) && after[|before|].toolCalls == []
            && RunStoredAs(tail, after[|before| + 1..], maxChars, now)
  {
    RunIsStoredAs(tail, maxChars, now);
    Offered(system, history, WithRuntime(UserContent(msg.content, images), RUNTIME_CONTEXT_TAG + rest), true, tail);
  }

  /** A message without text and attachments leaves only the entries of the run, exactly when it
      consists of newlines and blanks. */
  lemma {:induction false} BlankTurnIsStoredExactly(
    before: seq<Message>, system: Content, history: seq<Message>, msg: Inbound, rest: string,
    tail: seq<Message>, key: string, maxChars: int, now: nat)
    requires !EndsInUser(history) && !Storable(msg)
    ensures AfterTurn(before, system, history, msg, [], RUNTIME_CONTEXT_TAG + rest, tail, key, maxChars, now) ==
            before + PersistedAll(tail, maxChars, now)
            <==> OnlyNewlinesAndBlanks(msg.content)
  {
    var user := Plain(User, WithRuntime(UserContent(msg.content, []), RUNTIME_CONTEXT_TAG + rest));
    BlankMessageLeavesNothingUnless(msg.content, rest, maxChars, now);
    UserThenTail(before, system, history, user, tail, maxChars, now);
  }

  lemma {:induction false} UserThenTail(before: seq<Message>, system: Content, history: seq<Message>, user: Message,
    tail: seq<Message>, maxChars: int, now: nat)
    requires !EndsInUser(history) && user == Plain(User, user.content)
    ensures var stored := PersistedAll(From(Prompt(system, history, user.content) + tail, SaveSkip(history, false)), maxChars, now);
            before + [] + stored == before + PersistedAll(tail, maxChars, now) <==> Persisted(user, maxChars, now) == []
  {
    Offered(system, history, user.content, false, tail);
    PersistedAllAppend([user], tail, maxChars, now);
    PersistedOne(user, maxChars, now);
    AppendNothing(before, Persisted(user, maxChars, now), PersistedAll(tail, maxChars, now));
  }

  lemma {:induction false} PersistedOne(m: Message, maxChars: int, now: nat)
    ensures PersistedAll([m], maxChars, now) == Persisted(m, maxChars, now)
  {
    assert [m][..0] == [];
  }

  lemma {:induction false} AppendNothing<T>(a: seq<T>, b: seq<T>, c: seq<T>)
    ensures a + [] + (b + c) == a + c <==> b == []
  {
    assert |a + [] + (b + c)| == |a + c| + |b|;
    if b == [] { assert a + [] + (b + c) == a + c; }
  }

  /** On top of a history that ends in a user entry, the first entry of the run is lost. */
  lemma {:induction false} FirstRunEntryIsLost(
    before: seq<Message>, system: Content, history: seq<Message>, msg: Inbound, images: seq<Block>, rest: string,
    tail: seq<Message>, key: string, maxChars: int, now: nat)
    requires EndsInUser(history) && Storable(msg) && tail != []
    ensures AfterTurn(before, system, history, msg, images, RUNTIME_CONTEXT_TAG + rest, tail, key, maxChars, now) ==
            before + [EarlyEntry(msg, key, false, now)] + PersistedAll(tail[1..], maxChars, now)
  {
    Offered(system, history, WithRuntime(UserContent(msg.content, images), RUNTIME_CONTEXT_TAG + rest), true, tail);
  }

  /** The cases in which SAVE leaves an entry out. */
  ghost predicate LeavesNothing(m: Message) {
    || (m.role.Assistant? && Empty(m.content) && m.toolCalls == [])
    || (m.role.Tool? && m.content == Blocks([]))
    || (m.role.User? && m.content.Text? && Contains(m.content.text, RUNTIME_CONTEXT_TAG)
        && BeforeTagBlank(m.content.text))
    || (m.role.User? && m.content.Blocks? && forall b | b in m.content.blocks :: RuntimeBlock(b))
  }

  /** SAVE leaves out an entry in exactly these cases. */
  lemma {:induction false} LeftOut(m: Message, maxChars: int, now: nat)
    ensures Persisted(m, maxChars, now) == [] <==> LeavesNothing(m)
  {
    if m.content.Blocks? {
      KeptBlocks(m.content.blocks, Some(maxChars), false);
      KeptBlocks(m.content.blocks, None, true);
    }
    if m.content.Text? {
      TagFound(m.content.text);
      if FindFrom(m.content.text, RUNTIME_CONTEXT_TAG, 0) >= 0 {
        RStripEmpty(m.content.text[..FindFrom(m.content.text, RUNTIME_CONTEXT_TAG, 0)]);
      }
    }
  }

  ghost predicate BeforeTagBlank(text: string) {
    FindFrom(text, RUNTIME_CONTEXT_TAG, 0) >= 0 && OnlyNewlinesAndBlanks(text[..FindFrom(text, RUNTIME_CONTEXT_TAG, 0)])
  }

  lemma {:induction false} TagFound(text: string)
    ensures FindFrom(text, RUNTIME_CONTEXT_TAG, 0) >= 0 <==> Contains(text, RUNTIME_CONTEXT_TAG)
  {
    if i: nat :| OccursAt(text, RUNTIME_CONTEXT_TAG, i) {
      FindFromIsFirst(text, RUNTIME_CONTEXT_TAG, 0, i);
    }
  }

  lemma {:induction false} KeptBlocks(blocks: seq<Block>, bound: Option<int>, dropRuntime: bool)
    ensures Sanitized(blocks, bound, dropRuntime) == [] <==>
            forall b | b in blocks :: dropRuntime && RuntimeBlock(b)
  {
    if blocks != [] {
      var front, last := blocks[..|blocks| - 1], blocks[|blocks| - 1];
      KeptBlocks(front, bound, dropRuntime);
      assert last in blocks;
      assert forall b | b in blocks :: b == last || b in front;
      assert forall b | b in front :: b in blocks;
    }
  }

  lemma {:induction false} NoRuntimeBlocks(blocks: seq<Block>)
    ensures forall b | b in Sanitized(blocks, None, true) :: !RuntimeBlock(b)
  {
    if blocks != [] {
      var last := blocks[|blocks| - 1];
      NoRuntimeBlocks(blocks[..|blocks| - 1]);
      if !RuntimeBlock(last) && last.ImageBlock? && last.inline {
        assert ImagePlaceholder(last.path)[1] == 'i' && RUNTIME_CONTEXT_TAG[1] == 'R';
      }
    }
  }

  /** No user string that SAVE stores contains the runtime-context tag, and no stored block of a user entry
      is a runtime-context block. */
  lemma {:induction false} SavedUserTextIsTagFree(m: Message, maxChars: int, now: nat)
    ensures forall e | e in Persisted(m, maxChars, now) && e.role.User? && e.content.Text? ::
              !Contains(e.content.text, RUNTIME_CONTEXT_TAG)
    ensures forall e | e in Persisted(m, maxChars, now) && e.role.User? && e.content.Blocks? ::
              forall b | b in e.content.blocks :: !RuntimeBlock(b)
  {
    if m.role.User? && m.content.Text? {
      TagFound(m.content.text);
      if FindFrom(m.content.text, RUNTIME_CONTEXT_TAG, 0) >= 0 {
        PrefixBeforeFind(m.content.text, RUNTIME_CONTEXT_TAG, BeforeTag(m.content.text));
      }
    }
    if m.role.User? && m.content.Blocks? { NoRuntimeBlocks(m.content.blocks); }
  }

  // ----- What a stored entry is -----

  /** Text with at most `bound` characters is itself; more of it is cut, and says so. A bound of zero or less
      is none. */
  predicate Shortened(text: string, kept: string, bound: int) {
    if 0 < bound < |text|
    then |kept| == bound + |"\n... (truncated)"| && kept[..bound] == text[..bound] && kept[bound..] == "\n... (truncated)"
    else kept == text
  }

  /** Up to the first tag, without newlines and blanks at the end. */
  ghost predicate CutAtTag(text: string, kept: string, tag: nat) {
    && OccursAt(text, RUNTIME_CONTEXT_TAG, tag) && (forall i: nat | i < tag :: !OccursAt(text, RUNTIME_CONTEXT_TAG, i))
    && kept <= text[..tag] && EndsBare(kept) && forall i | |kept| <= i < tag :: text[i] == '\n' || text[i] == ' '
  }

  predicate BlockStoredAs(b: Block, kept: Block, bound: Option<int>) {
    match b
    case TextBlock(text) => kept.TextBlock? && Shortened(text, kept.text, if bound.Some? then bound.value else 0)
    case ImageBlock(inline, path) =>
      if !inline then kept == b else kept == TextBlock(if path == "" then "[image]" else "[image: " + path + "]")
    case OtherBlock(_) => kept == b
  }

  /** Block by block: those that start with the tag go if they are to, every other one is stored. */
  predicate BlocksStoredAs(blocks: seq<Block>, kept: seq<Block>, bound: Option<int>, dropTagged: bool)
    decreases |blocks|
  {
    if blocks == [] then kept == []
    else if dropTagged && blocks[0].TextBlock? && RUNTIME_CONTEXT_TAG <= blocks[0].text then
      BlocksStoredAs(blocks[1..], kept, bound, dropTagged)
    else kept != [] && BlockStoredAs(blocks[0], kept[0], bound) && BlocksStoredAs(blocks[1..], kept[1..], bound, dropTagged)
  }

  ghost predicate ContentStoredAs(m: Message, kept: Content, maxChars: int) {
    match m.content
    case NoContent => kept == NoContent
    case Text(text) =>
      if m.role.Tool? then kept.Text? && Shortened(text, kept.text, maxChars)
      else if m.role.User? && Contains(text, RUNTIME_CONTEXT_TAG) then
        kept.Text? && exists tag: nat :: CutAtTag(text, kept.text, tag)
      else kept == m.content
    case Blocks(blocks) =>
      if m.role.Tool? then kept.Blocks? && BlocksStoredAs(blocks, kept.blocks, Some(maxChars), false)
      else if m.role.User? then kept.Blocks? && BlocksStoredAs(blocks, kept.blocks, None, true)
      else kept == m.content
  }

  /** The stored entry has everything of the message but its stamp and, for tools and users, its content. */
  ghost predicate StoredAs(m: Message, e: Message, maxChars: int, now: nat) {
    e.(content := m.content, stamp := m.stamp) == m && Dated(e, m, now) && ContentStoredAs(m, e.content, maxChars)
  }

  lemma {:induction false} TruncateShortens(text: string, bound: int)
    ensures Shortened(text, Truncate(text, bound), bound)
  {
  }

  lemma {:induction false} SanitizedAppend(a: seq<Block>, b: seq<Block>, bound: Option<int>, dropTagged: bool)
    ensures Sanitized(a + b, bound, dropTagged) == Sanitized(a, bound, dropTagged) + Sanitized(b, bound, dropTagged)
  {
    if b == [] {
      assert a + b == a;
    } else {
      assert (a + b)[..|a + b| - 1] == a + b[..|b| - 1];
      SanitizedAppend(a, b[..|b| - 1], bound, dropTagged);
    }
  }

  lemma {:induction false} SanitizedOne(b: Block, bound: Option<int>, dropTagged: bool)
    ensures Sanitized([b], bound, dropTagged) == if dropTagged && RuntimeBlock(b) then [] else [SanitizedBlock(b, bound)]
  {
    assert [b][..0] == [];
  }

  lemma {:induction false} SanitizedStores(blocks: seq<Block>, bound: Option<int>, dropTagged: bool)
    ensures BlocksStoredAs(blocks, Sanitized(blocks, bound, dropTagged), bound, dropTagged)
    decreases |blocks|
  {
    if blocks != [] {
      var b, rest := blocks[0], Sanitized(blocks[1..], bound, dropTagged);
      assert blocks == [b] + blocks[1..];
      SanitizedAppend([b], blocks[1..], bound, dropTagged);
      SanitizedOne(b, bound, dropTagged);
      SanitizedStores(blocks[1..], bound, dropTagged);
      if !(dropTagged && RuntimeBlock(b)) {
        var kept := SanitizedBlock(b, bound);
        assert ([kept] + rest)[1..] == rest;
        if b.TextBlock? && bound.Some? { TruncateShortens(b.text, bound.value); }
      } else {
        assert [] + rest == rest;
      }
    }
  }

  lemma {:induction false} BeforeTagCuts(text: string)
    requires FindFrom(text, RUNTIME_CONTEXT_TAG, 0) >= 0
    ensures CutAtTag(text, BeforeTag(text), FindFrom(text, RUNTIME_CONTEXT_TAG, 0))
  {
    var tag := FindFrom(text, RUNTIME_CONTEXT_TAG, 0);
    RStripExactly(text[..tag], BeforeTag(text));
    forall i: nat | i < tag ensures !OccursAt(text, RUNTIME_CONTEXT_TAG, i) {
      if OccursAt(text, RUNTIME_CONTEXT_TAG, i) { FindFromIsFirst(text, RUNTIME_CONTEXT_TAG, 0, i); }
    }
    forall i | |BeforeTag(text)| <= i < tag ensures text[i] == '\n' || text[i] == ' ' { assert text[..tag][i] == text[i]; }
  }

  lemma {:induction false} ContentIsStored(m: Message, maxChars: int)
    requires PersistedContent(m, maxChars).Some?
    ensures ContentStoredAs(m, PersistedContent(m, maxChars).value, maxChars)
  {
    if m.content.Text? {
      TagFound(m.content.text);
      if m.role.Tool? { TruncateShortens(m.content.text, maxChars); }
      if m.role.User? && FindFrom(m.content.text, RUNTIME_CONTEXT_TAG, 0) >= 0 { BeforeTagCuts(m.content.text); }
    }
    if m.content.Blocks? {
      SanitizedStores(m.content.blocks, Some(maxChars), false);
      SanitizedStores(m.content.blocks, None, true);
    }
  }

  /** An entry that SAVE stores is the message itself up to the stamp; a tool's text is cut to its bound, a
      user's text at the runtime context, and blocks are replaced or left out one by one. */
  lemma {:induction false} EntryIsStoredAs(m: Message, maxChars: int, now: nat)
    ensures var stored := Persisted(m, maxChars, now);
            if LeavesNothing(m) then stored == [] else |stored| == 1 && StoredAs(m, stored[0], maxChars, now)
  {
    LeftOut(m, maxChars, now);
    if PersistedContent(m, maxChars).Some? {
      ContentIsStored(m, maxChars);
      StampedIs(m.(content := PersistedContent(m, maxChars).value), now);
    }
  }

  /** The entries of a run, in order, each stored once or left out. */
  ghost predicate RunStoredAs(ms: seq<Message>, stored: seq<Message>, maxChars: int, now: nat)
    decreases |ms|
  {
    if ms == [] then stored == []
    else if LeavesNothing(ms[0]) then RunStoredAs(ms[1..], stored, maxChars, now)
    else stored != [] && StoredAs(ms[0], stored[0], maxChars, now) && RunStoredAs(ms[1..], stored[1..], maxChars, now)
  }

  /** What SAVE stores of a run; the latency changes nothing but the stamp of the last assistant entry. */
  lemma {:induction false} RunIsStoredAs(ms: seq<Message>, maxChars: int, now: nat)
    ensures RunStoredAs(ms, TurnEntries(ms, maxChars, None, now), maxChars, now)
    decreases |ms|
  {
    if ms != [] {
      var first, rest := Persisted(ms[0], maxChars, now), PersistedAll(ms[1..], maxChars, now);
      assert ms == [ms[0]] + ms[1..];
      PersistedAllAppend([ms[0]], ms[1..], maxChars, now);
      PersistedOne(ms[0], maxChars, now);
      EntryIsStoredAs(ms[0], maxChars, now);
      RunIsStoredAs(ms[1..], maxChars, now);
      if first == [] { assert [] + rest == rest; } else { assert (first + rest)[1..] == rest && (first + rest)[0] == first[0]; }
    }
  }

  predicate IsLastAssistant(ms: seq<Message>, i: nat)
    requires i < |ms|
  {
    ms[i].role.Assistant? && forall k | i < k < |ms| :: !ms[k].role.Assistant?
  }

  lemma {:induction false} LatencyMarksLastAssistant(ms: seq<Message>, maxChars: int, latency: nat, now: nat)
    ensures var plain, marked := TurnEntries(ms, maxChars, None, now), TurnEntries(ms, maxChars, Some(latency), now);
            |marked| == |plain| && forall i | 0 <= i < |plain| ::
              marked[i] == if IsLastAssistant(plain, i) then plain[i].(stamp := plain[i].stamp.(latencyMs := Some(latency))) else plain[i]
  {
    MarksLast(PersistedAll(ms, maxChars, now), latency);
  }

  lemma {:induction false} MarksLast(ms: seq<Message>, latency: nat)
    ensures forall i | 0 <= i < |ms| ::
              WithLatency(ms, latency)[i] == if IsLastAssistant(ms, i) then ms[i].(stamp := ms[i].stamp.(latencyMs := Some(latency))) else ms[i]
  {
    if ms != [] && !ms[|ms| - 1].role.Assistant? {
      var front := ms[..|ms| - 1];
      MarksLast(front, latency);
      forall i | 0 <= i < |front| ensures IsLastAssistant(ms, i) <==> IsLastAssistant(front, i) {
        assert forall k | i < k < |front| :: front[k] == ms[k];
      }
    }
  }

  // ----- What the model is shown -----

  /** A character, or a block that is no text. */
  datatype Atom = Character(c: char) | Other(block: Block)

  function Letters(text: string): seq<Atom> {
    seq(|text|, i requires 0 <= i < |text| => Character(text[i]))
  }

  /** All that a content shows, in order. */
  function Shown(c: Content): seq<Atom> {
    match c
    case NoContent => []
    case Text(text) => Letters(text)
    case Blocks(blocks) => ShownBlocks(blocks)
  }

  function ShownBlocks(blocks: seq<Block>): seq<Atom> {
    if blocks == [] then []
    else (if blocks[0].TextBlock? then Letters(blocks[0].text) else [Other(blocks[0])]) + ShownBlocks(blocks[1..])
  }

  lemma {:induction false} ShownAppend(a: seq<Block>, b: seq<Block>)
    ensures ShownBlocks(a + b) == ShownBlocks(a) + ShownBlocks(b)
  {
    if a == [] {
      assert a + b == b;
    } else {
      assert (a + b)[1..] == a[1..] + b;
      ShownAppend(a[1..], b);
    }
  }

  lemma {:induction false} ShownText(text: string)
    ensures ShownBlocks([TextBlock(text)]) == Letters(text)
  {
    assert [TextBlock(text)][1..] == [];
  }

  lemma {:induction false} LettersAppend(a: string, b: string)
    ensures Letters(a + b) == Letters(a) + Letters(b)
  {
  }

  lemma {:induction false} ToBlocksShows(c: Content)
    ensures ShownBlocks(ToBlocks(c)) == Shown(c)
  {
    if c.Text? { ShownText(c.text); }
  }

  /** A merged content shows the left one and then the right one; an empty line is between two texts. */
  lemma {:induction false} MergeShowsBoth(left: Content, right: Content)
    ensures Shown(MergeContent(left, right)) ==
            Shown(left) + (if left.Text? && right.Text? && left.text != "" then Letters("\n\n") else []) + Shown(right)
  {
    if left.Text? && right.Text? {
      LettersAppend(left.text + "\n\n", right.text);
      LettersAppend(left.text, "\n\n");
    } else {
      ToBlocksShows(left);
      ToBlocksShows(right);
      ShownAppend(ToBlocks(left), ToBlocks(right));
    }
  }

  lemma {:induction false} RuntimeShows(text: string, images: seq<Block>, runtime: string)
    ensures Shown(WithRuntime(UserContent(text, images), runtime)) ==
            ShownBlocks(images) + Letters(text) + (if images == [] then Letters("\n\n") else []) + Letters(runtime)
  {
    if images == [] {
      LettersAppend(text + "\n\n", runtime);
      LettersAppend(text, "\n\n");
    } else {
      ShownAppend(images, [TextBlock(text)]);
      ShownAppend(images + [TextBlock(text)], [TextBlock(runtime)]);
      ShownText(text);
      ShownText(runtime);
    }
  }

  /** The text with its images and the runtime context behind it. */
  function Current(text: string, images: seq<Block>, runtime: string): seq<Atom> {
    ShownBlocks(images) + Letters(text) + (if images == [] then Letters("\n\n") else []) + Letters(runtime)
  }

  /** The whole begins with one thing and ends with the other, with nothing or an empty line between. */
  predicate Follows(first: seq<Atom>, next: seq<Atom>, whole: seq<Atom>) {
    whole == first + next || whole == first + Letters("\n\n") + next
  }

  lemma {:induction false} PromptPlaces(role: Role, system: Content, history: seq<Message>, current: Content)
    requires role != System
    ensures var p := PromptAs(role, system, history, current);
            && |p| > 0 && p[0] == Plain(System, system) && p[|p| - 1].role == role
            && (!EndsIn(history, role) ==> p[1..|p| - 1] == history && p[|p| - 1].content == current)
            && (EndsIn(history, role) ==>
                  var last := history[|history| - 1];
                  && p[1..|p| - 1] == history[..|history| - 1]
                  && p[|p| - 1] == last.(content := MergeContent(last.content, current)))
  {
  }

  lemma {:induction false} MergeFollows(left: Content, right: Content)
    ensures Follows(Shown(left), Shown(right), Shown(MergeContent(left, right)))
  {
    MergeShowsBoth(left, right);
    assert Shown(left) + [] + Shown(right) == Shown(left) + Shown(right);
  }

  /** The prompt is the system entry and the history; its last entry has the role asked for, shows what the
      history's last entry shows if that has this role, and then images, text and runtime context. */
  lemma {:induction false} PromptShowsMessage(role: Role, system: Content, history: seq<Message>, text: string, images: seq<Block>, runtime: string)
    requires role != System
    ensures var p := PromptAs(role, system, history, WithRuntime(UserContent(text, images), runtime));
            && |p| > 0 && p[0] == Plain(System, system) && p[|p| - 1].role == role
            && (!EndsIn(history, role) ==>
                  p[1..|p| - 1] == history && Shown(p[|p| - 1].content) == Current(text, images, runtime))
            && (EndsIn(history, role) ==>
                  && p[1..|p| - 1] == history[..|history| - 1]
                  && p[|p| - 1].(content := history[|history| - 1].content) == history[|history| - 1]
                  && Follows(Shown(history[|history| - 1].content), Current(text, images, runtime), Shown(p[|p| - 1].content)))
  {
    var current := WithRuntime(UserContent(text, images), runtime);
    RuntimeShows(text, images, runtime);
    assert Shown(current) == Current(text, images, runtime);
    PromptPlaces(role, system, history, current);
    if EndsIn(history, role) { MergeFollows(history[|history| - 1].content, current); }
  }
}

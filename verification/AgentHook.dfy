/** The `beforeRun` hook: how a prompt is read from a message list and written back. */
module AgentHook {
  import opened Collections

  datatype Role = User | Assistant
  datatype Content = TextBlock(text: string) | Other(payload: nat)
  datatype Message = Message(role: Role, content: seq<Content>)

  // ---- reading and writing --------------------------------------------------------------

  /** One past the last user message; 0 when there is none. */
  function LastUser(ms: seq<Message>): (n: nat)
    ensures n <= |ms|
    ensures n > 0 ==> ms[n - 1].role == User
    ensures forall i :: n <= i < |ms| ==> ms[i].role != User
  {
    if ms == [] then 0
    else if ms[|ms| - 1].role == User then |ms|
    else LastUser(ms[..|ms| - 1])
  }

  ghost predicate HasUser(ms: seq<Message>) { exists i :: 0 <= i < |ms| && ms[i].role == User }

  lemma NoUser(ms: seq<Message>)
    ensures LastUser(ms[..0]) == 0 && ms[..|ms|] == ms
  {
  }

  lemma LastUserStep(ms: seq<Message>, i: nat)
    requires i < |ms|
    ensures LastUser(ms[..i + 1]) == if ms[i].role == User then i + 1 else LastUser(ms[..i])
  {
    assert ms[..i + 1][..i] == ms[..i];
  }

  /** All text of a message, joined. */
  function TextOf(c: seq<Content>): string {
    if c == [] then ""
    else if c[|c| - 1].TextBlock? then TextOf(c[..|c| - 1]) + c[|c| - 1].text
    else TextOf(c[..|c| - 1])
  }

  /** The prompt a hook is shown. */
  function Read(ms: seq<Message>): string {
    var n := LastUser(ms);
    if n == 0 then "" else TextOf(ms[n - 1].content)
  }

  function NonText(c: seq<Content>): seq<Content> {
    if c == [] then []
    else NonText(c[..|c| - 1]) + if c[|c| - 1].TextBlock? then [] else [c[|c| - 1]]
  }

  /** Where the first text block is; the length when there is none. */
  function FirstText(c: seq<Content>): (k: nat)
    ensures k <= |c| && (k < |c| ==> c[k].TextBlock?)
    ensures forall i :: 0 <= i < k ==> !c[i].TextBlock?
  {
    if c == [] then 0
    else
      var k := FirstText(c[..|c| - 1]);
      if k < |c| - 1 then k else if c[|c| - 1].TextBlock? then |c| - 1 else |c|
  }

  /** Where the single text block of a rewritten message goes. */
  function Slot(c: seq<Content>): (k: nat)
    ensures k <= |NonText(c)|
  {
    SlotFits(c);
    if FirstText(c) == |c| then 0 else FirstText(c)
  }

  /** The other blocks in order, with one text block in the slot. */
  function Rewritten(c: seq<Content>, p: string): seq<Content> {
    NonText(c)[..Slot(c)] + ([TextBlock(p)] + NonText(c)[Slot(c)..])
  }

  lemma {:induction false} SlotFits(c: seq<Content>)
    ensures FirstText(c) <= |NonText(c)| && NonText(c)[..FirstText(c)] == c[..FirstText(c)]
    ensures FirstText(c) == |c| ==> NonText(c) == c
    ensures |NonText(c)| <= |c|
  {
    if c != [] {
      var init := c[..|c| - 1];
      SlotFits(init);
      assert c == init + [c[|c| - 1]];
      assert c[..FirstText(init)] == init[..FirstText(init)];
    }
  }

  /** A changed prompt is written to the last user message only. */
  function Replace(ms: seq<Message>, p: string): (r: seq<Message>)
    ensures |r| == |ms|
  {
    var n := LastUser(ms);
    if n == 0 then ms else ms[n - 1 := Message(User, Rewritten(ms[n - 1].content, p))]
  }

  // ---- the hook's answer ------------------------------------------------------------------

  /** The list a hook returns: none, a valid one, or one that is malformed. */
  datatype Rewrite = Keep | Instead(messages: seq<Message>) | Malformed

  /** What a hook leaves behind: the prompt it returns (absent when that is not a string), the list
      it returns, and the prompt that its context object holds by then, which is the one it was
      shown unless the hook wrote to it. */
  datatype HookResult = HookResult(prompt: Option<string>, messages: Rewrite, contextPrompt: string)

  datatype Applied = Rejected | Accepted(messages: seq<Message>)

  /** What the hook's answer makes of the run input; external backends take prompts only. */
  function ApplyHook(ms: seq<Message>, answer: HookResult, external: bool): Applied {
    if external && answer.messages != Keep && answer.messages != Instead(ms) then Rejected
    else if answer.prompt.None? || answer.messages.Malformed? then Rejected
    else
      var base := if answer.messages.Instead? then answer.messages.messages else ms;
      Accepted(if answer.prompt.value == answer.contextPrompt then base else Replace(base, answer.prompt.value))
  }

  /** A hook that returns a prompt only. */
  function Write(ms: seq<Message>, p: string): seq<Message> {
    if p == Read(ms) then ms else Replace(ms, p)
  }

  // ---- the rewritten message ----------------------------------------------------------------

  lemma {:induction false} NonTextAppend(a: seq<Content>, b: seq<Content>)
    ensures NonText(a + b) == NonText(a) + NonText(b) && TextOf(a + b) == TextOf(a) + TextOf(b)
  {
    if b == [] {
      assert a + b == a;
    } else {
      assert (a + b)[..|a + b| - 1] == a + b[..|b| - 1];
      NonTextAppend(a, b[..|b| - 1]);
    }
  }

  lemma {:induction false} OnlyOthers(c: seq<Content>)
    requires forall i :: 0 <= i < |c| ==> !c[i].TextBlock?
    ensures NonText(c) == c && TextOf(c) == ""
  {
    if c != [] {
      OnlyOthers(c[..|c| - 1]);
      assert c == c[..|c| - 1] + [c[|c| - 1]];
    }
  }

  lemma {:induction false} NonTextIsOther(c: seq<Content>)
    ensures forall i :: 0 <= i < |NonText(c)| ==> !NonText(c)[i].TextBlock?
  {
    if c != [] { NonTextIsOther(c[..|c| - 1]); }
  }

  lemma OneText(p: string)
    ensures NonText([TextBlock(p)]) == [] && TextOf([TextBlock(p)]) == p
  {
  }

  lemma {:induction false} FirstTextIs(c: seq<Content>, k: nat)
    requires k < |c| && c[k].TextBlock? && forall i :: 0 <= i < k ==> !c[i].TextBlock?
    ensures FirstText(c) == k
  {
  }

  lemma Around(a: seq<Content>, p: string, b: seq<Content>)
    requires forall i :: 0 <= i < |a| ==> !a[i].TextBlock?
    requires forall i :: 0 <= i < |b| ==> !b[i].TextBlock?
    ensures var r := a + ([TextBlock(p)] + b); NonText(r) == a + b && TextOf(r) == p && FirstText(r) == |a|
  {
    hide NonText, TextOf, FirstText;
    NonTextAppend(a, [TextBlock(p)] + b);
    NonTextAppend([TextBlock(p)], b);
    OneText(p);
    OnlyOthers(a);
    OnlyOthers(b);
    FirstTextIs(a + ([TextBlock(p)] + b), |a|);
  }

  lemma RewrittenReads(c: seq<Content>, p: string)
    ensures TextOf(Rewritten(c, p)) == p && NonText(Rewritten(c, p)) == NonText(c) && Slot(Rewritten(c, p)) == Slot(c)
  {
    hide NonText, TextOf, FirstText;
    NonTextIsOther(c);
    var rest, k := NonText(c), Slot(c);
    Around(rest[..k], p, rest[k..]);
    assert rest[..k] + rest[k..] == rest;
  }

  /** Rewriting keeps the other blocks in order, leaves one text block, and puts it where the
      first one was or at the head; nothing else does. */
  lemma {:induction false} RewriteCharacterised(c: seq<Content>, p: string, r: seq<Content>)
    ensures r == Rewritten(c, p) <==>
            && NonText(r) == NonText(c) && |r| == |NonText(c)| + 1
            && var k := if FirstText(c) < |c| then FirstText(c) else 0;
               k < |r| && r[k] == TextBlock(p)
  {
    hide NonText, TextOf, FirstText;
    SlotFits(c);
    RewrittenReads(c, p);
    if NonText(r) == NonText(c) && |r| == |NonText(c)| + 1 && r[Slot(c)] == TextBlock(p) {
      SplitAtText(r, Slot(c));
    }
  }

  /** A message with one text block is its other blocks around that one. */
  lemma SplitAtText(r: seq<Content>, k: nat)
    requires k < |r| && |r| == |NonText(r)| + 1 && r[k].TextBlock?
    ensures r[..k] == NonText(r)[..k] && r[k + 1..] == NonText(r)[k..]
  {
    hide NonText, TextOf;
    var a, b := r[..k], r[k + 1..];
    assert r == a + ([r[k]] + b);
    NonTextAppend(a, [r[k]] + b);
    NonTextAppend([r[k]], b);
    OneText(r[k].text);
    assert NonText(r) == NonText(a) + NonText(b);
    OnlyWhenFull(a);
    OnlyWhenFull(b);
  }

  lemma {:induction false} OnlyWhenFull(c: seq<Content>)
    ensures |NonText(c)| <= |c| && (|NonText(c)| == |c| ==> NonText(c) == c)
  {
    if c != [] {
      OnlyWhenFull(c[..|c| - 1]);
      assert c == c[..|c| - 1] + [c[|c| - 1]];
    }
  }

  /** Rewriting twice is rewriting once. */
  lemma RewrittenTwice(c: seq<Content>, p: string, q: string)
    ensures Rewritten(Rewritten(c, p), q) == Rewritten(c, q)
  {
    RewrittenReads(c, p);
  }

  /** Rewriting a message with its own text changes it unless it has one text block. */
  lemma OwnText(c: seq<Content>)
    ensures Rewritten(c, TextOf(c)) == c <==> |c| == |NonText(c)| + 1
  {
    hide NonText, TextOf, FirstText;
    RewriteCharacterised(c, TextOf(c), c);
    if |c| == |NonText(c)| + 1 { SingleText(c); }
  }

  lemma SingleText(c: seq<Content>)
    requires |c| == |NonText(c)| + 1
    ensures c[Slot(c)] == TextBlock(TextOf(c))
  {
    hide NonText, TextOf, FirstText;
    SlotFits(c);
    var k := FirstText(c);
    SplitAtText(c, k);
    NonTextIsOther(c);
    Around(c[..k], c[k].text, c[k + 1..]);
    assert c == c[..k] + ([c[k]] + c[k + 1..]);
  }

  // ---- the lens laws ------------------------------------------------------------------------

  lemma {:induction false} LastUserIs(ms: seq<Message>, n: nat)
    requires n <= |ms| && (n > 0 ==> ms[n - 1].role == User)
    requires forall i :: n <= i < |ms| ==> ms[i].role != User
    ensures LastUser(ms) == n
  {
  }

  lemma ReplaceReads(ms: seq<Message>, p: string)
    ensures LastUser(Replace(ms, p)) == LastUser(ms)
    ensures LastUser(ms) > 0 ==> Read(Replace(ms, p)) == p
  {
    var n := LastUser(ms);
    LastUserIs(Replace(ms, p), n);
    if n > 0 { RewrittenReads(ms[n - 1].content, p); }
  }

  lemma UserFound(ms: seq<Message>)
    ensures LastUser(ms) > 0 <==> HasUser(ms)
  {
  }

  /** The next reading is the prompt the hook asked for exactly when it differs from its context's
      and there is a user message to carry it, or the list the hook leaves already reads so. */
  lemma PutGet(ms: seq<Message>, answer: HookResult, external: bool)
    requires ApplyHook(ms, answer, external).Accepted?
    ensures var base := if answer.messages.Instead? then answer.messages.messages else ms;
            Read(ApplyHook(ms, answer, external).messages) == answer.prompt.value <==>
            (answer.prompt.value != answer.contextPrompt && HasUser(base)) || Read(base) == answer.prompt.value
  {
    hide LastUser, Rewritten, TextOf;
    var base := if answer.messages.Instead? then answer.messages.messages else ms;
    ReplaceReads(base, answer.prompt.value);
    UserFound(base);
  }

  /** Writing back the prompt just read changes nothing. */
  lemma GetPut(ms: seq<Message>, external: bool)
    ensures ApplyHook(ms, HookResult(Some(Read(ms)), Keep, Read(ms)), external) == Accepted(ms)
    ensures ApplyHook(ms, HookResult(Some(Read(ms)), Instead(ms), Read(ms)), external) == Accepted(ms)
  {
  }

  /** A hook that edits its context in place and returns it changes no text, whatever prompt it
      wrote; one that leaves the context alone and returns a prompt does what `Write` does. */
  lemma EditedContextIsIgnored(ms: seq<Message>, p: string, external: bool)
    ensures ApplyHook(ms, HookResult(Some(p), Keep, p), external) == Accepted(ms)
    ensures ApplyHook(ms, HookResult(Some(p), Keep, Read(ms)), external) == Accepted(Write(ms, p))
  {
  }

  /** The number of text blocks of the message the prompt is read from. */
  function PromptBlocks(ms: seq<Message>): int {
    var n := LastUser(ms);
    if n == 0 then 0 else |ms[n - 1].content| - |NonText(ms[n - 1].content)|
  }

  /** Two hooks in a row do what the second does alone, except when the second restores the
      prompt that the first one changed and that prompt was not a single text block. */
  lemma PutPut(ms: seq<Message>, p: string, q: string)
    ensures Write(Write(ms, p), q) == Write(ms, q) <==>
            q != Read(ms) || p == Read(ms) || !HasUser(ms) || PromptBlocks(ms) == 1
  {
    hide LastUser, Rewritten, TextOf, NonText;
    UserFound(ms);
    ReplaceReads(ms, p);
    if HasUser(ms) {
      var n := LastUser(ms);
      var c := ms[n - 1].content;
      RewrittenTwice(c, p, q);
      OwnText(c);
      assert Replace(Replace(ms, p), q) == Replace(ms, q);
      assert Replace(ms, Read(ms))[n - 1] == Message(User, Rewritten(c, TextOf(c)));
      if Rewritten(c, TextOf(c)) == c { assert Replace(ms, Read(ms)) == ms; }
      else { assert Replace(ms, Read(ms))[n - 1] != ms[n - 1]; }
    }
  }

  /** Nothing but the last user message changes, and of that only the text. */
  lemma WriteFrame(ms: seq<Message>, p: string)
    ensures var r := Write(ms, p);
            && |r| == |ms|
            && (forall i :: 0 <= i < |ms| ==>
                r[i].role == ms[i].role && NonText(r[i].content) == NonText(ms[i].content))
            && (forall i :: 0 <= i < |ms| && i + 1 != LastUser(ms) ==> r[i] == ms[i])
  {
    hide Rewritten, TextOf, NonText;
    var n := LastUser(ms);
    if n > 0 { RewrittenReads(ms[n - 1].content, p); }
  }

  /** When a hook's answer is accepted, and what it leaves of the list it answers for: an unchanged
      prompt leaves all of it; a changed one, of the last user message, the role and the other blocks
      in order with a single text block, and of all other messages everything. */
  lemma ApplyExactly(ms: seq<Message>, answer: HookResult, external: bool)
    ensures ApplyHook(ms, answer, external).Accepted? <==>
            && answer.prompt.Some? && !answer.messages.Malformed?
            && (external ==> answer.messages == Keep || answer.messages == Instead(ms))
    ensures ApplyHook(ms, answer, external).Accepted? ==>
            var base := if answer.messages.Instead? then answer.messages.messages else ms;
            var r, n := ApplyHook(ms, answer, external).messages, LastUser(base);
            && (answer.prompt.value == answer.contextPrompt ==> r == base)
            && |r| == |base| && (forall i :: 0 <= i < |base| && i != n - 1 ==> r[i] == base[i])
            && (answer.prompt.value != answer.contextPrompt && n > 0 ==>
                  && r[n - 1].role == User && NonText(r[n - 1].content) == NonText(base[n - 1].content)
                  && |r[n - 1].content| == |NonText(r[n - 1].content)| + 1)
  {
    hide Rewritten, TextOf, NonText;
    var base := if answer.messages.Instead? then answer.messages.messages else ms;
    var n := LastUser(base);
    if n > 0 && answer.prompt.Some? {
      RewriteCharacterised(base[n - 1].content, answer.prompt.value,
          Rewritten(base[n - 1].content, answer.prompt.value));
    }
  }

  // ---- in place -----------------------------------------------------------------------------

  /** The run input, which the agent owns and edits in place. */
  class MessageList {
    var items: seq<Message>

    constructor (items: seq<Message>)
      ensures this.items == items
    {
      this.items := items;
    }

    method BuildPrompt() returns (prompt: string)
      ensures prompt == Read(items)
    {
      hide LastUser, TextOf;
      prompt := "";
      var i := |items| - 1;
      NoUser(items);
      while i >= 0
        invariant -1 <= i < |items|
        invariant LastUser(items) == LastUser(items[..i + 1])
        invariant prompt == ""
      {
        LastUserStep(items, i);
        if items[i].role == User {
          prompt := JoinText(items[i].content);
          break;
        }
        i := i - 1;
      }
    }

    /** Applies the hook's answer, or throws and leaves the list alone. */
    method ApplyHookContext(answer: HookResult, external: bool) returns (thrown: bool)
      modifies this
      ensures thrown == ApplyHook(old(items), answer, external).Rejected?
      ensures items == if thrown then old(items) else ApplyHook(old(items), answer, external).messages
    {
      if external && answer.messages != Keep && answer.messages != Instead(items) {
        return true;
      }
      if answer.prompt.None? || answer.messages.Malformed? {
        return true;
      }
      if answer.messages.Instead? {
        items := answer.messages.messages;
      }
      thrown := false;
      if answer.prompt.value != answer.contextPrompt {
        WritePrompt(answer.prompt.value);
      }
    }

    method WritePrompt(prompt: string)
      modifies this
      ensures items == Replace(old(items), prompt)
    {
      hide Rewritten, LastUser;
      var i := |items| - 1;
      NoUser(items);
      while i >= 0
        invariant -1 <= i < |items| && items == old(items)
        invariant LastUser(items) == LastUser(items[..i + 1])
      {
        LastUserStep(items, i);
        if items[i].role == User {
          var rewritten := RewriteContent(items[i].content, prompt);
          items := items[i := Message(User, rewritten)];
          break;
        }
        i := i - 1;
      }
    }
  }

  method JoinText(content: seq<Content>) returns (text: string)
    ensures text == TextOf(content)
  {
    text := "";
    for i := 0 to |content|
      invariant text == TextOf(content[..i])
    {
      assert content[..i + 1][..i] == content[..i];
      if content[i].TextBlock? { text := text + content[i].text; }
    }
    assert content[..|content|] == content;
  }

  method RewriteContent(content: seq<Content>, prompt: string) returns (blocks: seq<Content>)
    ensures blocks == Rewritten(content, prompt)
  {
    SlotFits(content);
    var first := FirstText(content);
    if first == |content| {
      return [TextBlock(prompt)] + content;
    }
    blocks := [];
    for i := 0 to |content|
      invariant blocks == Reduced(content[..i], prompt, first)
    {
      assert content[..i + 1][..i] == content[..i];
      if !content[i].TextBlock? {
        blocks := blocks + [content[i]];
      } else if i == first {
        blocks := blocks + [TextBlock(prompt)];
      }
    }
    assert content[..|content|] == content;
    ReducedShape(content, prompt, first);
    RewriteCharacterised(content, prompt, blocks);
  }

  /** What the reduction has built when it has seen `c`. */
  function Reduced(c: seq<Content>, prompt: string, first: nat): seq<Content> {
    if c == [] then []
    else
      var b := c[|c| - 1];
      Reduced(c[..|c| - 1], prompt, first)
      + if !b.TextBlock? then [b] else if |c| - 1 == first then [TextBlock(prompt)] else []
  }

  lemma {:induction false} ReducedShape(c: seq<Content>, prompt: string, first: nat)
    requires first < |c| ==> c[first].TextBlock?
    requires forall i :: 0 <= i < |c| && i < first ==> !c[i].TextBlock?
    ensures var r := Reduced(c, prompt, first);
            && NonText(r) == NonText(c)
            && |r| == |NonText(c)| + (if first < |c| then 1 else 0)
            && (first < |c| ==> first < |r| && r[first] == TextBlock(prompt))
  {
    hide NonText, TextOf;
    if c == [] {
      OnlyOthers(c);
    } else {
      var init, b := c[..|c| - 1], c[|c| - 1];
      ReducedShape(init, prompt, first);
      assert c == init + [b];
      NonTextAppend(init, [b]);
      OneBlock(b);
      OneBlock(TextBlock(prompt));
      if |init| <= first { OnlyOthers(init); }
      ReducedStep(Reduced(init, prompt, first),
                  if !b.TextBlock? then [b] else if |init| == first then [TextBlock(prompt)] else []);
    }
  }

  lemma ReducedStep(r: seq<Content>, more: seq<Content>)
    ensures NonText(r + more) == NonText(r) + NonText(more) && NonText([]) == []
  {
    NonTextAppend(r, more);
  }

  lemma OneBlock(b: Content)
    ensures NonText([b]) == if b.TextBlock? then [] else [b]
  {
  }
}

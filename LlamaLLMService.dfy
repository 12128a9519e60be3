/**
  The demo service: a keyword responder that stands in for a language model.
  A non-blank prompt is lower-cased and checked, in table order, against eight
  keywords; the reply of the first keyword that occurs in it is returned, and
  when none occurs a fixed text quoting the prompt is returned instead.
 */
module LlamaLLMService {
  import opened Wrappers
  import opened DotNetText

  const InvalidPromptReply := "Please provide a valid prompt."

  /** The keyword table, in the order its entries are inserted and enumerated. */
  const Responses: seq<(string, string)> := [
    ("hello", "Hello! How can I assist you today?"),
    ("how are you", "I'm doing well, thank you for asking! I'm here to help with any questions you might have."),
    ("what is", "I'd be happy to help explain that topic. Could you provide more specific details about what you'd like to know?"),
    ("explain", "I can help explain that concept. What specific aspect would you like me to focus on?"),
    ("help", "I'm here to help! What would you like assistance with?"),
    ("thank", "You're welcome! I'm glad I could help. Is there anything else you'd like to know?"),
    ("weather", "I don't have access to real-time weather data, but I can help you understand weather concepts or suggest how to check current conditions."),
    ("time", "I don't have access to the current time, but I can help explain time-related concepts or suggest ways to check the current time.")
  ]

  /** The fallback reply is `DefaultHead + prompt + DefaultTail`. */
  const DefaultHead := "I understand you're asking about '"
  const DefaultTail :=
    "'. While I'm currently running in demo mode, " +
    "a real Llama model would provide a detailed response to your question. " +
    "To use an actual Llama model, please download an ONNX-compatible Llama model " +
    "and update the model loading logic in the LlamaLLMService class."

  /** The key of table entry `k` occurs in `text`. */
  predicate KeyOccurs(table: seq<(string, string)>, text: string, k: int)
    requires 0 <= k < |table|
  {
    Contains(text, table[k].0)
  }

  /** `k` is the first entry of `table`, in table order, whose key occurs in `text`. */
  predicate IsFirstHit(table: seq<(string, string)>, text: string, k: int) {
    && 0 <= k < |table|
    && KeyOccurs(table, text, k)
    && forall j :: 0 <= j < k ==> !KeyOccurs(table, text, j)
  }

  /** The enumeration of the table from entry `from` on, stopping at the
      first key that occurs in `text`. */
  function FindFrom(table: seq<(string, string)>, text: string, from: nat): (r: Option<nat>)
    requires from <= |table|
    requires forall j :: 0 <= j < from ==> !KeyOccurs(table, text, j)
    ensures r.Some? ==> IsFirstHit(table, text, r.value)
    ensures r.None? ==> forall j :: 0 <= j < |table| ==> !KeyOccurs(table, text, j)
    decreases |table| - from
  {
    if from == |table| then None
    else if Contains(text, table[from].0) then Some(from)
    else FindFrom(table, text, from + 1)
  }

  /** The fallback reply, quoting the prompt exactly as the caller wrote it. */
  function DefaultResponse(prompt: string): string {
    DefaultHead + prompt + DefaultTail
  }

  /** `GenerateDemoResponse`: the value of the first key, in table order,
      that occurs in the lower-cased prompt, or the fallback when none does. */
  function GenerateDemoResponse(prompt: string): (r: string)
    ensures forall k :: IsFirstHit(Responses, ToLower(prompt), k) ==> r == Responses[k].1
    ensures (forall j :: 0 <= j < |Responses| ==> !KeyOccurs(Responses, ToLower(prompt), j)) ==>
              r == DefaultResponse(prompt)
  {
    match FindFrom(Responses, ToLower(prompt), 0)
    case Some(k) => Responses[k].1
    case None => DefaultResponse(prompt)
  }

  /** `GenerateTextAsync`: the prompt guard, then the responder. `None` is a
      null prompt. */
  function GenerateTextAsync(prompt: Option<string>): string {
    if IsNullOrWhiteSpace(prompt) then InvalidPromptReply else GenerateDemoResponse(prompt.value)
  }

  /** A text that starts with `head` and ends with `tail`, with room for
      both, is `head`, then what lies between them, then `tail`. */
  lemma SplitAround(text: string, head: string, tail: string)
    requires |head| + |tail| <= |text|
    requires text[..|head|] == head && text[|text| - |tail|..] == tail
    ensures text == head + text[|head|..|text| - |tail|] + tail
  {
    assert text == text[..|head|] + text[|head|..|text| - |tail|] + text[|text| - |tail|..];
  }

  /** Recovers the prompt quoted in a fallback reply; `None` for any text
      that is not shaped like one. */
  function QuotedPrompt(reply: string): (r: Option<string>)
    ensures r.Some? ==> reply == DefaultResponse(r.value)
  {
    if |DefaultHead| + |DefaultTail| <= |reply|
       && reply[..|DefaultHead|] == DefaultHead
       && reply[|reply| - |DefaultTail|..] == DefaultTail
    then
      SplitAround(reply, DefaultHead, DefaultTail);
      Some(reply[|DefaultHead|..|reply| - |DefaultTail|])
    else
      None
  }

  /** The fallback reply quotes the prompt verbatim: it can be read back. */
  lemma DefaultQuotesPrompt(prompt: string)
    ensures QuotedPrompt(DefaultResponse(prompt)) == Some(prompt)
  {
    var reply := DefaultResponse(prompt);
    assert reply[..|DefaultHead|] == DefaultHead;
    assert reply[|reply| - |DefaultTail|..] == DefaultTail;
    assert reply[|DefaultHead|..|reply| - |DefaultTail|] == prompt;
  }

  /** No canned reply and not the invalid-prompt reply is shaped like a
      fallback reply: each of them is shorter than the fixed part of one. */
  lemma FixedRepliesAreNotQuotes()
    ensures forall k :: 0 <= k < |Responses| ==> QuotedPrompt(Responses[k].1).None?
    ensures QuotedPrompt(InvalidPromptReply).None?
  {
    assert forall k :: 0 <= k < |Responses| ==> |Responses[k].1| < |DefaultHead| + |DefaultTail|;
  }

  /** A null, empty or white-space prompt, and only such a prompt, gets the
      invalid-prompt reply. */
  lemma InvalidPromptReplyIffBlank(prompt: Option<string>)
    ensures GenerateTextAsync(prompt) == InvalidPromptReply <==> IsNullOrWhiteSpace(prompt)
  {
    if !IsNullOrWhiteSpace(prompt) {
      assert forall k :: 0 <= k < |Responses| ==> |InvalidPromptReply| < |Responses[k].1|;
      assert |InvalidPromptReply| < |DefaultResponse(prompt.value)|;
    }
  }

  /** For a non-blank prompt the reply is the value of the first key, in
      table order, that occurs in the lower-cased prompt. */
  lemma ReplyIsFirstHit(prompt: string, k: nat)
    requires !AllWhiteSpace(prompt)
    requires IsFirstHit(Responses, ToLower(prompt), k)
    ensures GenerateTextAsync(Some(prompt)) == Responses[k].1
  {
    var r := FindFrom(Responses, ToLower(prompt), 0);
    assert r.Some? && r.value == k;
  }

  /** The reply quotes the prompt back exactly when the prompt is non-blank
      and none of the eight keys occurs in its lower-cased form. */
  lemma FallbackIffNoKey(prompt: Option<string>)
    ensures QuotedPrompt(GenerateTextAsync(prompt)) ==
            if !IsNullOrWhiteSpace(prompt) && forall j :: 0 <= j < |Responses| ==> !KeyOccurs(Responses, ToLower(prompt.value), j)
            then Some(prompt.value)
            else None
  {
    FixedRepliesAreNotQuotes();
    if !IsNullOrWhiteSpace(prompt) {
      var r := FindFrom(Responses, ToLower(prompt.value), 0);
      if r.None? {
        DefaultQuotesPrompt(prompt.value);
      }
    }
  }

  /** Every reply is one of the fixed texts or the fallback for this very
      prompt, and none is empty. */
  lemma ReplyIsFixedOrFallback(prompt: Option<string>)
    ensures var r := GenerateTextAsync(prompt);
            && r != []
            && (|| r == InvalidPromptReply
                || (exists k :: 0 <= k < |Responses| && r == Responses[k].1)
                || (prompt.Some? && r == DefaultResponse(prompt.value)))
  {
    assert forall k :: 0 <= k < |Responses| ==> Responses[k].1 != [];
  }

  /** Canned replies ignore letter case: two prompts that differ only in case
      and hit a key get the same reply. */
  lemma CannedReplyIgnoresCase(p: string, q: string, k: nat)
    requires EqualIgnoringCase(p, q)
    requires !AllWhiteSpace(p)
    requires IsFirstHit(Responses, ToLower(p), k)
    ensures GenerateTextAsync(Some(q)) == GenerateTextAsync(Some(p)) == Responses[k].1
  {
    assert ToLower(p) == ToLower(q);
    var i :| 0 <= i < |p| && !IsWhiteSpace(p[i]);
    LowerCharKeepsWhiteSpace(p[i]);
    LowerCharKeepsWhiteSpace(q[i]);
    assert !IsWhiteSpace(q[i]);
    ReplyIsFirstHit(p, k);
    ReplyIsFirstHit(q, k);
  }

  /** The first three keys of the table, in order. */
  lemma FirstKeys()
    ensures |Responses| == 8
    ensures Responses[0].0 == "hello" && Responses[1].0 == "how are you" && Responses[2].0 == "what is"
  {
  }

  /** "what is the time" contains "what is" but neither "hello" nor
      "how are you": it has no 'l' and no 'y'. */
  lemma WhatIsTheTimeKeys()
    ensures !Contains("what is the time", "hello")
    ensures !Contains("what is the time", "how are you")
    ensures Contains("what is the time", "what is")
  {
    var p := "what is the time";
    MissingCharNotContained(p, "hello", 2);
    MissingCharNotContained(p, "how are you", 8);
    assert StartsWith(p[0..], "what is");
  }

  /** In "what is the time", "what is" is the first key that occurs. */
  lemma WhatIsIsFirstHit()
    ensures IsFirstHit(Responses, "what is the time", 2)
  {
    WhatIsTheTimeKeys();
    FirstKeys();
  }

  /** "what is" comes before "time" in the table, so a prompt holding both
      gets the "what is" reply. */
  lemma WhatIsBeatsTime()
    ensures GenerateTextAsync(Some("what is the time")) == Responses[2].1
  {
    var p := "what is the time";
    assert ToLower(p) == p;
    WhatIsIsFirstHit();
    assert p[0] != ' ';
    ReplyIsFirstHit(p, 2);
  }

  /** "hello" is the first key, so "hello, help" gets the greeting, not the
      "help" reply. */
  lemma HelloBeatsHelp()
    ensures GenerateTextAsync(Some("hello, help")) == Responses[0].1
  {
    var p := "hello, help";
    assert ToLower(p) == p;
    assert StartsWith(p[0..], Responses[0].0);
    assert p[0] != ' ';
    ReplyIsFirstHit(p, 0);
  }
}

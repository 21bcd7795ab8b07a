/**
 The mock reply generator of the chat hook (`getBotResponse`, src/hooks/useChat.ts).
 The simulated latency is left out; the random pick among the generic templates
 is a parameter, so every possible reply is a value of `Respond`.
 */
module BotReplies {
  import opened Types
  import opened Text

  /** A trigger phrase and the canned reply it selects. */
  datatype Rule = Rule(trigger: string, reply: string)

  const Greeting := "Hello! I'm ZeroCode AI Assistant. How can I help you today?"
  const Welcome := "Hi there! Welcome to ZeroCode Chat. What would you like to talk about?"
  const HelpOffer := "I can help you with various topics including programming, general questions, and more. What specific area would you like assistance with?"
  const Capabilities := "I can assist with programming questions, general knowledge, problem-solving, and engaging conversations. Try asking me anything!"
  const YoureWelcome := "You're welcome! I'm here if you need any more help."
  const Goodbye := "Goodbye! Feel free to come back anytime you need assistance."

  /** The trigger table, in the order its entries are tried. */
  const Rules: seq<Rule> := [
    Rule("hello", Greeting),
    Rule("hi", Welcome),
    Rule("help", HelpOffer),
    Rule("what can you do", Capabilities),
    Rule("thanks", YoureWelcome),
    Rule("bye", Goodbye)
  ]

  /** The generic acknowledgements used when no trigger matches. */
  const Templates: seq<string> := [
    "That's an interesting question! Let me think about that...",
    "I understand what you're asking. Here's my perspective on that topic.",
    "Great question! Based on my knowledge, I can share some insights.",
    "I'd be happy to help you with that. Let me provide some information.",
    "That's a thoughtful inquiry. Here's what I know about this subject.",
    "I can definitely assist you with that. Let me break it down for you.",
    "Excellent question! I have some relevant information that might help.",
    "I appreciate you asking about this. Here's my take on the matter."
  ]

  /** An index `Math.floor(Math.random() * 8)` can produce. */
  type TemplateIndex = i: nat | i < 8

  /** The sentence appended to a generic template; it quotes the message as the user typed it. */
  function FallbackSuffix(userMessage: string): string {
    QuoteOpen + userMessage + QuoteClose
  }

  const QuoteOpen := " Regarding \""
  const QuoteClose := "\", I think this is a topic worth exploring further. What specific aspect would you like to know more about?"

  predicate Fires(text: string, rule: Rule) {
    Contains(text, rule.trigger)
  }

  /** The first rule at or after `from` whose trigger occurs in `text`, if any. */
  function FirstMatch(text: string, rules: seq<Rule>, from: nat): (r: Option<nat>)
    requires from <= |rules|
    ensures r.Some? ==> from <= r.value < |rules| && Fires(text, rules[r.value])
    ensures r.Some? ==> forall k | from <= k < r.value :: !Fires(text, rules[k])
    ensures r.None? ==> forall k | from <= k < |rules| :: !Fires(text, rules[k])
    decreases |rules| - from
  {
    if from == |rules| then None
    else if Fires(text, rules[from]) then Some(from)
    else FirstMatch(text, rules, from + 1)
  }

  /** The reply to `userMessage` when the random template pick is `pick`. */
  function Respond(userMessage: string, pick: TemplateIndex): string {
    match FirstMatch(ToLower(userMessage), Rules, 0)
    case Some(k) => Rules[k].reply
    case None => Templates[pick] + FallbackSuffix(userMessage)
  }

  /** When the lower-cased message contains a trigger, the reply is that of the first such trigger, whatever the pick. */
  lemma RespondFirstTrigger(userMessage: string, k: nat, pick: TemplateIndex)
    requires k < |Rules| && Fires(ToLower(userMessage), Rules[k])
    requires forall j | 0 <= j < k :: !Fires(ToLower(userMessage), Rules[j])
    ensures Respond(userMessage, pick) == Rules[k].reply
  {
  }

  /** When no trigger occurs, the reply is the picked template followed by the suffix quoting the untrimmed message. */
  lemma RespondFallback(userMessage: string, pick: TemplateIndex)
    requires forall k | 0 <= k < |Rules| :: !Fires(ToLower(userMessage), Rules[k])
    ensures Respond(userMessage, pick) == Templates[pick] + FallbackSuffix(userMessage)
  {
  }

  /** Every reply is a canned reply or a template plus the suffix. */
  lemma RespondIsCannedOrTemplate(userMessage: string, pick: TemplateIndex)
    ensures (exists k | 0 <= k < |Rules| :: Respond(userMessage, pick) == Rules[k].reply)
         || Respond(userMessage, pick) == Templates[pick] + FallbackSuffix(userMessage)
  {
    var m := FirstMatch(ToLower(userMessage), Rules, 0);
    if m.Some? {
      assert Respond(userMessage, pick) == Rules[m.value].reply;
    }
  }

  /** "hello" gets the greeting, and so does "Hello": matching ignores ASCII case. */
  lemma HelloGetsGreeting(pick: TemplateIndex)
    ensures Respond("hello", pick) == Greeting
    ensures Respond("Hello", pick) == Greeting
  {
    assert ToLower("hello") == "hello";
    assert ToLower("Hello") == "hello";
    assert "hello" <= "hello"[0..];
    RespondFirstTrigger("hello", 0, pick);
    RespondFirstTrigger("Hello", 0, pick);
  }

  /** Triggers match as substrings, not words: "this" contains "hi" and gets the welcome. */
  lemma ThisMatchesHi(pick: TemplateIndex)
    ensures Respond("this", pick) == Welcome
  {
    assert ToLower("this") == "this";
    assert "hi" <= "this"[1..];
    assert |Rules[0].trigger| > |"this"|;
    RespondFirstTrigger("this", 1, pick);
  }

  /** No trigger occurs in "xyz123": none of them starts with a character of it. */
  lemma NoTriggerInXyz123()
    ensures forall k | 0 <= k < |Rules| :: !Fires("xyz123", Rules[k])
  {
    var text := "xyz123";
    forall k | 0 <= k < |Rules| ensures !Fires(text, Rules[k]) {
      var t := Rules[k].trigger;
      assert t[0] in "hwtb";
      forall i | 0 <= i <= |text| - |t| ensures !(t <= text[i..]) {
        assert t[0] != text[i];
      }
    }
  }

  /** "xyz123" contains no trigger, so it gets a generic template quoting it. */
  lemma UnmatchedGetsTemplate(pick: TemplateIndex)
    ensures Respond("xyz123", pick) == Templates[pick] + FallbackSuffix("xyz123")
  {
    assert ToLower("xyz123") == "xyz123";
    NoTriggerInXyz123();
    RespondFallback("xyz123", pick);
  }
}

// The chat page's placeholder reply: one of eight canned responses, chosen by a
// random number in [0, 1).

module ChatPage {

  const CannedResponses: seq<string> := [
    "I understand you're going through a difficult time. Can you tell me more about what's been on your mind lately?",
    "That sounds really challenging. It's completely normal to feel this way. What strategies have helped you cope in the past?",
    "I'm here to listen and support you. What would you like to focus on today?",
    "It takes courage to share what you're feeling. How can I help you work through this?",
    "I can sense this is important to you. What would you like to explore together?",
    "Thank you for trusting me with this. Let's work through this step by step.",
    "I'm here to support you through this. What's one small thing that might help you feel better right now?",
    "Your feelings are valid and important. What would you like to do to take care of yourself today?"
  ]

  /** `Math.floor(random * n)` for a random number in [0, 1): an index below `n`. */
  function PickIndex(random: real, n: nat): (i: nat)
    requires 0.0 <= random < 1.0
    requires n > 0
    ensures i < n
    ensures i as real <= random * n as real < i as real + 1.0
  {
    var x := random * n as real;
    assert x < n as real by {
      assert n as real - x == (1.0 - random) * n as real;
    }
    assert 0.0 <= x;
    x.Floor
  }

  /** `generateAIResponse`, with the random number as a parameter: always one of
      the canned responses. */
  function GenerateAIResponse(random: real): (r: string)
    requires 0.0 <= random < 1.0
    ensures r in CannedResponses
    ensures exists i :: 0 <= i < |CannedResponses| && r == CannedResponses[i] &&
                        i as real <= random * 8.0 < i as real + 1.0
  {
    var i := PickIndex(random, |CannedResponses|);
    CannedResponses[i]
  }

  /** Every canned response is chosen for some random number: the one for
      response `i` is `i / 8`. */
  lemma EveryResponseReachable(i: nat)
    requires i < |CannedResponses|
    ensures GenerateAIResponse(i as real / 8.0) == CannedResponses[i]
  {
    var random := i as real / 8.0;
    assert random * 8.0 == i as real;
    assert PickIndex(random, 8) == i;
  }
}

/** The reply selector of the chat endpoint (src/app/api/chat/route.ts): the user text is
    lowercased once and a fixed, hand-ordered list of keyword rules is tried in order; the
    first rule that holds chooses the reply template and a final fallback catches the rest. */
module ChatRoute {
  import opened Strings
  import opened Wrappers

  /** One category per reply template, in source order. */
  datatype Category =
    | Greeting | Gratitude | Uncertainty | SadnessWhy | Sadness | Loneliness | Anxiety
    | HelpRequest | Identity | Duration | Stress | Anger | NegativeFeeling | PositiveFeeling
    | Sleep | Relationships | WorkSchool | Coping | ShortAck | OffTopic | Question | Supportive

  /** The position of a category's template in the source, 0 for the greeting up to 21 for
      the final supportive fallback. */
  function Rank(c: Category): (n: nat)
    ensures n <= 21
  {
    match c
    case Greeting => 0
    case Gratitude => 1
    case Uncertainty => 2
    case SadnessWhy => 3
    case Sadness => 4
    case Loneliness => 5
    case Anxiety => 6
    case HelpRequest => 7
    case Identity => 8
    case Duration => 9
    case Stress => 10
    case Anger => 11
    case NegativeFeeling => 12
    case PositiveFeeling => 13
    case Sleep => 14
    case Relationships => 15
    case WorkSchool => 16
    case Coping => 17
    case ShortAck => 18
    case OffTopic => 19
    case Question => 20
    case Supportive => 21
  }

  /** The category at a source position, the inverse of Rank. */
  function CategoryAt(n: nat): (c: Category)
    requires n <= 21
    ensures Rank(c) == n
  {
    if n == 0 then Greeting
    else if n == 1 then Gratitude
    else if n == 2 then Uncertainty
    else if n == 3 then SadnessWhy
    else if n == 4 then Sadness
    else if n == 5 then Loneliness
    else if n == 6 then Anxiety
    else if n == 7 then HelpRequest
    else if n == 8 then Identity
    else if n == 9 then Duration
    else if n == 10 then Stress
    else if n == 11 then Anger
    else if n == 12 then NegativeFeeling
    else if n == 13 then PositiveFeeling
    else if n == 14 then Sleep
    else if n == 15 then Relationships
    else if n == 16 then WorkSchool
    else if n == 17 then Coping
    else if n == 18 then ShortAck
    else if n == 19 then OffTopic
    else if n == 20 then Question
    else Supportive
  }

  lemma CategoryAtRank(c: Category)
    ensures CategoryAt(Rank(c)) == c
  {
  }

  /** Only the fallback sits at the last position. */
  lemma RankOfSupportive(c: Category)
    ensures Rank(c) == 21 <==> c == Supportive
  {
  }

  /** The fixed reply template of each category, as the source writes it. */
  function Template(c: Category): (t: string)
  {
    match c
    case Greeting =>
      "Hello! I'm MindCompanion, your AI mental health companion. I'm here to listen and support you. How are you feeling today?"
    case Gratitude =>
      "You're very welcome! I'm glad I could be here for you. How are you feeling right now? Is there anything else you'd like to talk about?"
    case Uncertainty =>
      "It's completely okay to not know or to feel uncertain. Sometimes our feelings and thoughts can be confusing, and that's normal. Can you tell me more about what's making you feel unsure? Sometimes talking through our confusion can help us find some clarity."
    case SadnessWhy =>
      "I can hear that you're feeling sad and asking why. That's such an important question to explore. Sometimes sadness comes from specific events, losses, or changes in our lives. Other times it might feel like it comes out of nowhere. Can you tell me more about what's been happening in your life lately? Understanding what's behind our sadness can sometimes help us process it better."
    case Sadness =>
      "I can hear that you're feeling sad, and I want you to know that your feelings are completely valid. Sadness is a natural human emotion, and it's okay to feel this way. Can you tell me more about what's contributing to these feelings? Sometimes talking about what's on your mind can help lighten the load."
    case Loneliness =>
      "Feeling lonely can be one of the hardest emotions to experience. You're not alone in feeling this way, even though it might feel like it. I'm here with you right now. What would help you feel more connected? Sometimes even small steps toward connection can make a big difference."
    case Anxiety =>
      "I understand you're feeling anxious, and that can be really overwhelming. Anxiety is your body's way of trying to protect you, but sometimes it can feel like too much. What's been making you feel anxious lately? Sometimes naming our fears can help us feel a little more in control."
    case HelpRequest =>
      "I'm here to listen, support, and help you work through whatever you're experiencing. I can help you explore your feelings, practice coping strategies, or just be a safe space to talk. What would be most helpful for you right now? Sometimes just having someone listen can make a world of difference."
    case Identity =>
      "I'm MindCompanion, your AI mental health companion. I'm here to listen, support, and help you through whatever you're going through. I don't have time limits - we can talk for as long as you need. What's on your mind today?"
    case Duration =>
      "I don't have any time limits - we can talk for as long as you need. I'm here whenever you need support, whether that's for a few minutes or much longer. Your mental health journey is important, and I'm committed to being here for you. What would you like to talk about?"
    case Stress =>
      "It sounds like you're feeling stressed or overwhelmed, and that's completely understandable. Stress can feel like it's piling up on us. What's been causing you the most stress lately? Sometimes breaking down what's overwhelming us into smaller pieces can help us feel more in control."
    case Anger =>
      "I can hear that you're feeling angry or frustrated, and those are completely valid emotions. Anger often comes from feeling hurt, powerless, or misunderstood. What's been making you feel this way? Sometimes talking about what's behind our anger can help us understand and process these feelings."
    case NegativeFeeling =>
      "I can hear that you're feeling really bad right now, and I want you to know that your feelings are valid. Sometimes when we feel this way, it can be hard to see a way forward. Can you tell me more about what's contributing to these feelings? I'm here to listen and support you through this."
    case PositiveFeeling =>
      "I'm glad to hear you're feeling better! That's wonderful. How are you doing today? Is there anything specific that's been helping you feel this way?"
    case Sleep =>
      "I can hear that sleep is on your mind. Sleep and mental health are closely connected - when we're struggling emotionally, it often affects our sleep, and poor sleep can make our mental health challenges feel even harder. What's been happening with your sleep lately? Sometimes talking about our sleep patterns can help us understand what might be affecting our overall wellbeing."
    case Relationships =>
      "I can hear that relationships are on your mind. Relationships can be such a source of both joy and stress in our lives. How are your relationships affecting how you're feeling right now? Sometimes talking about our connections with others can help us understand our own emotions better."
    case WorkSchool =>
      "I can hear that work or school is on your mind. These areas of our lives can have a big impact on how we feel overall. What's been happening with work or school that's affecting you? Sometimes talking about these pressures can help us find ways to manage them better."
    case Coping =>
      "I can hear you're thinking about coping strategies and self-care. That's such an important part of taking care of our mental health. What's been working for you lately? Sometimes sharing what helps us can be really valuable, and I'm here to support you in finding what works best for you."
    case ShortAck =>
      "I hear you. Can you tell me more about what's on your mind? I want to understand what you're experiencing so I can better support you."
    case OffTopic =>
      "I understand you're asking about that, but I'm here specifically to support your mental health and emotional wellbeing. How are you feeling today? Is there anything on your mind that you'd like to talk about? I'm here to listen and help you work through whatever you're experiencing."
    case Question =>
      "I can hear you're asking some important questions. I'm here to help you explore these thoughts and feelings. Can you tell me more about what's on your mind? Sometimes talking through our questions can help us find our own answers."
    case Supportive =>
      "I'm here to listen and support you. It sounds like you're going through something important. Can you tell me more about what's on your mind? I want to understand what you're experiencing so I can better support you."
  }

  /** A rule's predicate over the lowercased message. */
  datatype Cond =
    | AnyOf(keys: seq<string>)                           // one of `keys` occurs
    | AnyOfBoth(first: seq<string>, second: seq<string>)  // one of `first` and one of `second` occur
    | ShortAnyOf(limit: nat, keys: seq<string>)           // fewer than `limit` characters and one of `keys` occurs

  /** `keys[0] || keys[1] || ...`, each an `includes` test. */
  predicate AnyOccurs(message: string, keys: seq<string>)
  {
    exists k :: k in keys && Contains(message, k)
  }

  predicate Holds(c: Cond, message: string)
  {
    match c
    case AnyOf(keys) => AnyOccurs(message, keys)
    case AnyOfBoth(first, second) => AnyOccurs(message, first) && AnyOccurs(message, second)
    case ShortAnyOf(limit, keys) => |message| < limit && AnyOccurs(message, keys)
  }

  const GreetingWords: seq<string> := ["hi", "hello", "hey"]
  const GratitudeWords: seq<string> := ["thank", "thanks", "appreciate"]
  const UncertaintyWords: seq<string> := ["dont know", "don't know", "not sure", "confused"]
  const SadnessWords: seq<string> := ["sad", "depressed", "down", "blue"]
  const LonelinessWords: seq<string> := ["lonely", "alone", "isolated", "onely"]
  const AnxietyWords: seq<string> := ["anxious", "worried", "nervous", "panic"]
  const HelpWords: seq<string> := ["help", "how can you help", "what can you do"]
  const IdentityWords: seq<string> := ["name", "what are you", "who are you"]
  const DurationWords: seq<string> := ["how long", "time limit", "stop working"]
  const StressWords: seq<string> := ["stressed", "overwhelmed", "pressure"]
  const AngerWords: seq<string> := ["angry", "mad", "frustrated", "irritated"]
  const SleepWords: seq<string> := ["sleep", "tired", "exhausted", "insomnia"]
  const RelationshipWords: seq<string> := ["relationship", "partner", "friend", "family", "breakup", "divorce"]
  const WorkWords: seq<string> := ["work", "job", "school", "study", "career", "boss", "colleague"]
  const CopingWords: seq<string> := ["cope", "coping", "self-care", "therapy", "meditation", "exercise"]
  const OffTopicWords: seq<string> := ["time", "weather", "superhero", "movie", "food", "sport"]
  const WhyWord: seq<string> := ["why"]
  const FeelWord: seq<string> := ["feel"]
  const NegativeWords: seq<string> := ["bad", "terrible", "awful", "horrible"]
  const PositiveWords: seq<string> := ["good", "better", "okay", "alright"]
  const AckWords: seq<string> := ["yes", "no", "ok", "okay"]
  const QuestionMark: seq<string> := ["?"]
  const WhWords: seq<string> := ["what", "how", "why", "who", "when", "where"]

  /** The condition of the rule at each source position. The sadness test with its
      nested `why` test becomes two rows, the `why` variant first; the final fallback is
      not a row. */
  function RuleAt(i: nat): Cond
    requires i < RuleCount
  {
    if i == 0 then AnyOf(GreetingWords)  // Greeting
    else if i == 1 then AnyOf(GratitudeWords)  // Gratitude
    else if i == 2 then AnyOf(UncertaintyWords)  // Uncertainty
    else if i == 3 then AnyOfBoth(SadnessWords, WhyWord)  // SadnessWhy
    else if i == 4 then AnyOf(SadnessWords)  // Sadness
    else if i == 5 then AnyOf(LonelinessWords)  // Loneliness
    else if i == 6 then AnyOf(AnxietyWords)  // Anxiety
    else if i == 7 then AnyOf(HelpWords)  // HelpRequest
    else if i == 8 then AnyOf(IdentityWords)  // Identity
    else if i == 9 then AnyOf(DurationWords)  // Duration
    else if i == 10 then AnyOf(StressWords)  // Stress
    else if i == 11 then AnyOf(AngerWords)  // Anger
    else if i == 12 then AnyOfBoth(FeelWord, NegativeWords)  // NegativeFeeling
    else if i == 13 then AnyOfBoth(FeelWord, PositiveWords)  // PositiveFeeling
    else if i == 14 then AnyOf(SleepWords)  // Sleep
    else if i == 15 then AnyOf(RelationshipWords)  // Relationships
    else if i == 16 then AnyOf(WorkWords)  // WorkSchool
    else if i == 17 then AnyOf(CopingWords)  // Coping
    else if i == 18 then ShortAnyOf(10, AckWords)  // ShortAck
    else if i == 19 then AnyOf(OffTopicWords)  // OffTopic
    else AnyOfBoth(QuestionMark, WhWords)  // Question
  }

  /** The number of rules; position RuleCount stands for the final fallback. */
  const RuleCount := 21

  /** The reply chain exactly as the source writes it: nested `if`s over `includes` tests,
      each branch naming the template it returns. */
  function CategoryAsWritten(userMessage: string): Category
  {
    var message := ToLower(userMessage);
    if Contains(message, "hi") || Contains(message, "hello") || Contains(message, "hey") then Greeting
    else if Contains(message, "thank") || Contains(message, "thanks") || Contains(message, "appreciate") then Gratitude
    else if Contains(message, "dont know") || Contains(message, "don't know") || Contains(message, "not sure") || Contains(message, "confused") then Uncertainty
    else if Contains(message, "sad") || Contains(message, "depressed") || Contains(message, "down") || Contains(message, "blue") then
      (if Contains(message, "why") then SadnessWhy else Sadness)
    else if Contains(message, "lonely") || Contains(message, "alone") || Contains(message, "isolated") || Contains(message, "onely") then Loneliness
    else if Contains(message, "anxious") || Contains(message, "worried") || Contains(message, "nervous") || Contains(message, "panic") then Anxiety
    else if Contains(message, "help") || Contains(message, "how can you help") || Contains(message, "what can you do") then HelpRequest
    else if Contains(message, "name") || Contains(message, "what are you") || Contains(message, "who are you") then Identity
    else if Contains(message, "how long") || Contains(message, "time limit") || Contains(message, "stop working") then Duration
    else if Contains(message, "stressed") || Contains(message, "overwhelmed") || Contains(message, "pressure") then Stress
    else if Contains(message, "angry") || Contains(message, "mad") || Contains(message, "frustrated") || Contains(message, "irritated") then Anger
    else if Contains(message, "feel") && (Contains(message, "bad") || Contains(message, "terrible") || Contains(message, "awful") || Contains(message, "horrible")) then NegativeFeeling
    else if Contains(message, "feel") && (Contains(message, "good") || Contains(message, "better") || Contains(message, "okay") || Contains(message, "alright")) then PositiveFeeling
    else if Contains(message, "sleep") || Contains(message, "tired") || Contains(message, "exhausted") || Contains(message, "insomnia") then Sleep
    else if Contains(message, "relationship") || Contains(message, "partner") || Contains(message, "friend") || Contains(message, "family") || Contains(message, "breakup") || Contains(message, "divorce") then Relationships
    else if Contains(message, "work") || Contains(message, "job") || Contains(message, "school") || Contains(message, "study") || Contains(message, "career") || Contains(message, "boss") || Contains(message, "colleague") then WorkSchool
    else if Contains(message, "cope") || Contains(message, "coping") || Contains(message, "self-care") || Contains(message, "therapy") || Contains(message, "meditation") || Contains(message, "exercise") then Coping
    else if |message| < 10 && (Contains(message, "yes") || Contains(message, "no") || Contains(message, "ok") || Contains(message, "okay")) then ShortAck
    else if Contains(message, "time") || Contains(message, "weather") || Contains(message, "superhero") || Contains(message, "movie") || Contains(message, "food") || Contains(message, "sport") then OffTopic
    else if Contains(message, "?") && (Contains(message, "what") || Contains(message, "how") || Contains(message, "why") || Contains(message, "who") || Contains(message, "when") || Contains(message, "where")) then Question
    else Supportive
  }

  function ReplyAsWritten(userMessage: string): string
  {
    Template(CategoryAsWritten(userMessage))
  }

  /** `n` is the first rule, from position 0, whose predicate holds on `message`, or
      `RuleCount` when none does. */
  predicate FirstHolding(message: string, n: nat)
  {
    n <= RuleCount
    && (n < RuleCount ==> Holds(RuleAt(n), message))
    && forall j :: 0 <= j < n ==> !Holds(RuleAt(j), message)
  }

  /** Generic first-match search from position `from`. */
  function FirstMatch(message: string, from: nat): (n: nat)
    requires from <= RuleCount
    requires forall j :: 0 <= j < from ==> !Holds(RuleAt(j), message)
    ensures from <= n && FirstHolding(message, n)
    decreases RuleCount - from
  {
    if from == RuleCount then from
    else if Holds(RuleAt(from), message) then from
    else FirstMatch(message, from + 1)
  }

  /** Only one position satisfies FirstHolding. */
  lemma FirstHoldingUnique(message: string, n: nat, m: nat)
    requires FirstHolding(message, n) && FirstHolding(message, m)
    ensures n == m
  {
  }

  /** The category of a message: the category of the first holding rule over the
      lowercased text, or the supportive fallback (position RuleCount) when none holds. */
  function Classify(userMessage: string): (c: Category)
    ensures FirstHolding(ToLower(userMessage), Rank(c))
    ensures c == Supportive <==> forall j :: 0 <= j < RuleCount ==> !Holds(RuleAt(j), ToLower(userMessage))
  {
    var c := CategoryAt(FirstMatch(ToLower(userMessage), 0));
    RankOfSupportive(c);
    c
  }

  // Each reply text once more as a named constant. Unfolding Template on one category
  // brings every text into the proof; equating it with one constant first keeps the
  // length argument to that one text.
  const GreetingText: string := "Hello! I'm MindCompanion, your AI mental health companion. I'm here to listen and support you. How are you feeling today?"
  const GratitudeText: string := "You're very welcome! I'm glad I could be here for you. How are you feeling right now? Is there anything else you'd like to talk about?"
  const UncertaintyText: string := "It's completely okay to not know or to feel uncertain. Sometimes our feelings and thoughts can be confusing, and that's normal. Can you tell me more about what's making you feel unsure? Sometimes talking through our confusion can help us find some clarity."
  const SadnessWhyText: string := "I can hear that you're feeling sad and asking why. That's such an important question to explore. Sometimes sadness comes from specific events, losses, or changes in our lives. Other times it might feel like it comes out of nowhere. Can you tell me more about what's been happening in your life lately? Understanding what's behind our sadness can sometimes help us process it better."
  const SadnessText: string := "I can hear that you're feeling sad, and I want you to know that your feelings are completely valid. Sadness is a natural human emotion, and it's okay to feel this way. Can you tell me more about what's contributing to these feelings? Sometimes talking about what's on your mind can help lighten the load."
  const LonelinessText: string := "Feeling lonely can be one of the hardest emotions to experience. You're not alone in feeling this way, even though it might feel like it. I'm here with you right now. What would help you feel more connected? Sometimes even small steps toward connection can make a big difference."
  const AnxietyText: string := "I understand you're feeling anxious, and that can be really overwhelming. Anxiety is your body's way of trying to protect you, but sometimes it can feel like too much. What's been making you feel anxious lately? Sometimes naming our fears can help us feel a little more in control."
  const HelpRequestText: string := "I'm here to listen, support, and help you work through whatever you're experiencing. I can help you explore your feelings, practice coping strategies, or just be a safe space to talk. What would be most helpful for you right now? Sometimes just having someone listen can make a world of difference."
  const IdentityText: string := "I'm MindCompanion, your AI mental health companion. I'm here to listen, support, and help you through whatever you're going through. I don't have time limits - we can talk for as long as you need. What's on your mind today?"
  const DurationText: string := "I don't have any time limits - we can talk for as long as you need. I'm here whenever you need support, whether that's for a few minutes or much longer. Your mental health journey is important, and I'm committed to being here for you. What would you like to talk about?"
  const StressText: string := "It sounds like you're feeling stressed or overwhelmed, and that's completely understandable. Stress can feel like it's piling up on us. What's been causing you the most stress lately? Sometimes breaking down what's overwhelming us into smaller pieces can help us feel more in control."
  const AngerText: string := "I can hear that you're feeling angry or frustrated, and those are completely valid emotions. Anger often comes from feeling hurt, powerless, or misunderstood. What's been making you feel this way? Sometimes talking about what's behind our anger can help us understand and process these feelings."
  const NegativeFeelingText: string := "I can hear that you're feeling really bad right now, and I want you to know that your feelings are valid. Sometimes when we feel this way, it can be hard to see a way forward. Can you tell me more about what's contributing to these feelings? I'm here to listen and support you through this."
  const PositiveFeelingText: string := "I'm glad to hear you're feeling better! That's wonderful. How are you doing today? Is there anything specific that's been helping you feel this way?"
  const SleepText: string := "I can hear that sleep is on your mind. Sleep and mental health are closely connected - when we're struggling emotionally, it often affects our sleep, and poor sleep can make our mental health challenges feel even harder. What's been happening with your sleep lately? Sometimes talking about our sleep patterns can help us understand what might be affecting our overall wellbeing."
  const RelationshipsText: string := "I can hear that relationships are on your mind. Relationships can be such a source of both joy and stress in our lives. How are your relationships affecting how you're feeling right now? Sometimes talking about our connections with others can help us understand our own emotions better."
  const WorkSchoolText: string := "I can hear that work or school is on your mind. These areas of our lives can have a big impact on how we feel overall. What's been happening with work or school that's affecting you? Sometimes talking about these pressures can help us find ways to manage them better."
  const CopingText: string := "I can hear you're thinking about coping strategies and self-care. That's such an important part of taking care of our mental health. What's been working for you lately? Sometimes sharing what helps us can be really valuable, and I'm here to support you in finding what works best for you."
  const ShortAckText: string := "I hear you. Can you tell me more about what's on your mind? I want to understand what you're experiencing so I can better support you."
  const OffTopicText: string := "I understand you're asking about that, but I'm here specifically to support your mental health and emotional wellbeing. How are you feeling today? Is there anything on your mind that you'd like to talk about? I'm here to listen and help you work through whatever you're experiencing."
  const QuestionText: string := "I can hear you're asking some important questions. I'm here to help you explore these thoughts and feelings. Can you tell me more about what's on your mind? Sometimes talking through our questions can help us find our own answers."
  const SupportiveText: string := "I'm here to listen and support you. It sounds like you're going through something important. Can you tell me more about what's on your mind? I want to understand what you're experiencing so I can better support you."

  lemma GreetingTemplateNonEmpty()
    ensures |Template(Greeting)| > 0
  {
    assert |GreetingText| > 0;
    assert Template(Greeting) == GreetingText;
  }

  lemma GratitudeTemplateNonEmpty()
    ensures |Template(Gratitude)| > 0
  {
    assert |GratitudeText| > 0;
    assert Template(Gratitude) == GratitudeText;
  }

  lemma UncertaintyTemplateNonEmpty()
    ensures |Template(Uncertainty)| > 0
  {
    assert |UncertaintyText| > 0;
    assert Template(Uncertainty) == UncertaintyText;
  }

  lemma SadnessWhyTemplateNonEmpty()
    ensures |Template(SadnessWhy)| > 0
  {
    assert |SadnessWhyText| > 0;
    assert Template(SadnessWhy) == SadnessWhyText;
  }

  lemma SadnessTemplateNonEmpty()
    ensures |Template(Sadness)| > 0
  {
    assert |SadnessText| > 0;
    assert Template(Sadness) == SadnessText;
  }

  lemma LonelinessTemplateNonEmpty()
    ensures |Template(Loneliness)| > 0
  {
    assert |LonelinessText| > 0;
    assert Template(Loneliness) == LonelinessText;
  }

  lemma AnxietyTemplateNonEmpty()
    ensures |Template(Anxiety)| > 0
  {
    assert |AnxietyText| > 0;
    assert Template(Anxiety) == AnxietyText;
  }

  lemma HelpRequestTemplateNonEmpty()
    ensures |Template(HelpRequest)| > 0
  {
    assert |HelpRequestText| > 0;
    assert Template(HelpRequest) == HelpRequestText;
  }

  lemma IdentityTemplateNonEmpty()
    ensures |Template(Identity)| > 0
  {
    assert |IdentityText| > 0;
    assert Template(Identity) == IdentityText;
  }

  lemma DurationTemplateNonEmpty()
    ensures |Template(Duration)| > 0
  {
    assert |DurationText| > 0;
    assert Template(Duration) == DurationText;
  }

  lemma StressTemplateNonEmpty()
    ensures |Template(Stress)| > 0
  {
    assert |StressText| > 0;
    assert Template(Stress) == StressText;
  }

  lemma AngerTemplateNonEmpty()
    ensures |Template(Anger)| > 0
  {
    assert |AngerText| > 0;
    assert Template(Anger) == AngerText;
  }

  lemma NegativeFeelingTemplateNonEmpty()
    ensures |Template(NegativeFeeling)| > 0
  {
    assert |NegativeFeelingText| > 0;
    assert Template(NegativeFeeling) == NegativeFeelingText;
  }

  lemma PositiveFeelingTemplateNonEmpty()
    ensures |Template(PositiveFeeling)| > 0
  {
    assert |PositiveFeelingText| > 0;
    assert Template(PositiveFeeling) == PositiveFeelingText;
  }

  lemma SleepTemplateNonEmpty()
    ensures |Template(Sleep)| > 0
  {
    assert |SleepText| > 0;
    assert Template(Sleep) == SleepText;
  }

  lemma RelationshipsTemplateNonEmpty()
    ensures |Template(Relationships)| > 0
  {
    assert |RelationshipsText| > 0;
    assert Template(Relationships) == RelationshipsText;
  }

  lemma WorkSchoolTemplateNonEmpty()
    ensures |Template(WorkSchool)| > 0
  {
    assert |WorkSchoolText| > 0;
    assert Template(WorkSchool) == WorkSchoolText;
  }

  lemma CopingTemplateNonEmpty()
    ensures |Template(Coping)| > 0
  {
    assert |CopingText| > 0;
    assert Template(Coping) == CopingText;
  }

  lemma ShortAckTemplateNonEmpty()
    ensures |Template(ShortAck)| > 0
  {
    assert |ShortAckText| > 0;
    assert Template(ShortAck) == ShortAckText;
  }

  lemma OffTopicTemplateNonEmpty()
    ensures |Template(OffTopic)| > 0
  {
    assert |OffTopicText| > 0;
    assert Template(OffTopic) == OffTopicText;
  }

  lemma QuestionTemplateNonEmpty()
    ensures |Template(Question)| > 0
  {
    assert |QuestionText| > 0;
    assert Template(Question) == QuestionText;
  }

  lemma SupportiveTemplateNonEmpty()
    ensures |Template(Supportive)| > 0
  {
    assert |SupportiveText| > 0;
    assert Template(Supportive) == SupportiveText;
  }

  /** Every category has a non-empty reply. */
  lemma TemplateNonEmpty(c: Category)
    ensures |Template(c)| > 0
  {
    match c
    case Greeting => GreetingTemplateNonEmpty();
    case Gratitude => GratitudeTemplateNonEmpty();
    case Uncertainty => UncertaintyTemplateNonEmpty();
    case SadnessWhy => SadnessWhyTemplateNonEmpty();
    case Sadness => SadnessTemplateNonEmpty();
    case Loneliness => LonelinessTemplateNonEmpty();
    case Anxiety => AnxietyTemplateNonEmpty();
    case HelpRequest => HelpRequestTemplateNonEmpty();
    case Identity => IdentityTemplateNonEmpty();
    case Duration => DurationTemplateNonEmpty();
    case Stress => StressTemplateNonEmpty();
    case Anger => AngerTemplateNonEmpty();
    case NegativeFeeling => NegativeFeelingTemplateNonEmpty();
    case PositiveFeeling => PositiveFeelingTemplateNonEmpty();
    case Sleep => SleepTemplateNonEmpty();
    case Relationships => RelationshipsTemplateNonEmpty();
    case WorkSchool => WorkSchoolTemplateNonEmpty();
    case Coping => CopingTemplateNonEmpty();
    case ShortAck => ShortAckTemplateNonEmpty();
    case OffTopic => OffTopicTemplateNonEmpty();
    case Question => QuestionTemplateNonEmpty();
    case Supportive => SupportiveTemplateNonEmpty();
  }

  /** generateIntelligentResponse: every message gets a non-empty reply, the
      template of its category. */
  function GenerateIntelligentResponse(userMessage: string): (r: string)
    ensures r == Template(Classify(userMessage))
    ensures |r| > 0
  {
    TemplateNonEmpty(Classify(userMessage));
    Template(Classify(userMessage))
  }

  /** The result of POST: a reply and its timestamp. */
  datatype ChatReply = ChatReply(response: string, timestamp: string)

  /** POST. `message` is None when the request body cannot be parsed, or has no string
      `message` field, so that lowercasing it would throw; the handler then answers as if
      the user had said "Hello". The clock is the parameter `now`. */
  function Post(message: Option<string>, now: string): (r: ChatReply)
    ensures message.Some? ==> r.response == GenerateIntelligentResponse(message.value)
    ensures message.None? ==> r.response == GenerateIntelligentResponse(FallbackMessage)
    ensures r.timestamp == now
  {
    var text := message.GetOr(FallbackMessage);
    ChatReply(GenerateIntelligentResponse(text), now)
  }

  /** The text the error path of POST answers. */
  const FallbackMessage: string := "Hello"

  // ---------------------------------------------------------------------------
  // Properties of the rule chain

  /** First match wins: if rule i holds and no earlier rule does, its template is the
      reply, whatever later rules would say. */
  lemma FirstMatchWins(userMessage: string, i: nat)
    requires i < RuleCount
    requires Holds(RuleAt(i), ToLower(userMessage))
    requires forall j :: 0 <= j < i ==> !Holds(RuleAt(j), ToLower(userMessage))
    ensures Classify(userMessage) == CategoryAt(i)
    ensures GenerateIntelligentResponse(userMessage) == Template(CategoryAt(i))
  {
    var c := Classify(userMessage);
    FirstHoldingUnique(ToLower(userMessage), Rank(c), i);
    CategoryAtRank(c);
  }

  /** When no rule holds the reply is the final supportive fallback. */
  lemma NoRuleSupportive(userMessage: string)
    requires forall j :: 0 <= j < RuleCount ==> !Holds(RuleAt(j), ToLower(userMessage))
    ensures GenerateIntelligentResponse(userMessage) == Template(Supportive)
  {
  }

  /** Matching ignores case: inputs equal up to ASCII case get the same reply. */
  lemma CaseInsensitive(a: string, b: string)
    requires EqualIgnoringCase(a, b)
    ensures GenerateIntelligentResponse(a) == GenerateIntelligentResponse(b)
  {
    ToLowerCaseInsensitive(a, b);
  }

  /** A message gets the greeting if and only if its lowercase form contains "hi",
      "hello" or "hey" anywhere. */
  lemma GreetingIff(userMessage: string)
    ensures var m := ToLower(userMessage);
      Classify(userMessage) == Greeting <==> Contains(m, "hi") || Contains(m, "hello") || Contains(m, "hey")
  {
    var m := ToLower(userMessage);
    if Contains(m, "hi") || Contains(m, "hello") || Contains(m, "hey") {
      FirstMatchWins(userMessage, 0);
    }
  }

  /** The greeting fires on "hi" inside a word: any text containing "this", "nothing" or
      "something" is greeted. */
  lemma HiInsideWords(userMessage: string)
    requires var m := ToLower(userMessage);
      Contains(m, "this") || Contains(m, "nothing") || Contains(m, "something")
    ensures Classify(userMessage) == Greeting
  {
    var m := ToLower(userMessage);
    assert OccursAt("this", "hi", 1);
    assert OccursAt("nothing", "hi", 3);
    assert OccursAt("something", "hi", 5);
    if Contains(m, "this") {
      ContainsTransitive(m, "this", "hi");
    } else if Contains(m, "nothing") {
      ContainsTransitive(m, "nothing", "hi");
    } else {
      ContainsTransitive(m, "something", "hi");
    }
    GreetingIff(userMessage);
  }

  /** Hence the replies agree. */
  lemma ReplyAsWrittenAgrees(userMessage: string)
    ensures ReplyAsWritten(userMessage) == GenerateIntelligentResponse(userMessage)
  {
    AsWrittenAgrees(userMessage);
  }

  /** When the request cannot be read, POST answers with the greeting. */
  lemma PostErrorPathGreets(now: string)
    ensures Post(None, now).response == Template(Greeting)
  {
    GreetingsForHello();
  }

  /** The reply POST falls back to is the greeting, since "Hello" lowercases to "hello". */
  lemma GreetingsForHello()
    ensures Classify(FallbackMessage) == Greeting
  {
    assert ToLower("Hello") == "hello";
    assert OccursAt("hello", "hello", 0);
    GreetingIff("Hello");
  }

  lemma Rule0Holds(message: string)
    ensures Holds(RuleAt(0), message) <==> Contains(message, "hi") || Contains(message, "hello") || Contains(message, "hey")
  {
  }

  lemma Rule1Holds(message: string)
    ensures Holds(RuleAt(1), message) <==> Contains(message, "thank") || Contains(message, "thanks") || Contains(message, "appreciate")
  {
  }

  lemma Rule2Holds(message: string)
    ensures Holds(RuleAt(2), message) <==> Contains(message, "dont know") || Contains(message, "don't know") || Contains(message, "not sure") || Contains(message, "confused")
  {
  }

  lemma Rule3Holds(message: string)
    ensures Holds(RuleAt(3), message) <==> (Contains(message, "sad") || Contains(message, "depressed") || Contains(message, "down") || Contains(message, "blue")) && Contains(message, "why")
  {
  }

  lemma Rule4Holds(message: string)
    ensures Holds(RuleAt(4), message) <==> Contains(message, "sad") || Contains(message, "depressed") || Contains(message, "down") || Contains(message, "blue")
  {
  }

  lemma Rule5Holds(message: string)
    ensures Holds(RuleAt(5), message) <==> Contains(message, "lonely") || Contains(message, "alone") || Contains(message, "isolated") || Contains(message, "onely")
  {
  }

  lemma Rule6Holds(message: string)
    ensures Holds(RuleAt(6), message) <==> Contains(message, "anxious") || Contains(message, "worried") || Contains(message, "nervous") || Contains(message, "panic")
  {
  }

  lemma Rule7Holds(message: string)
    ensures Holds(RuleAt(7), message) <==> Contains(message, "help") || Contains(message, "how can you help") || Contains(message, "what can you do")
  {
  }

  lemma Rule8Holds(message: string)
    ensures Holds(RuleAt(8), message) <==> Contains(message, "name") || Contains(message, "what are you") || Contains(message, "who are you")
  {
  }

  lemma Rule9Holds(message: string)
    ensures Holds(RuleAt(9), message) <==> Contains(message, "how long") || Contains(message, "time limit") || Contains(message, "stop working")
  {
  }

  lemma Rule10Holds(message: string)
    ensures Holds(RuleAt(10), message) <==> Contains(message, "stressed") || Contains(message, "overwhelmed") || Contains(message, "pressure")
  {
  }

  lemma Rule11Holds(message: string)
    ensures Holds(RuleAt(11), message) <==> Contains(message, "angry") || Contains(message, "mad") || Contains(message, "frustrated") || Contains(message, "irritated")
  {
  }

  lemma Rule12Holds(message: string)
    ensures Holds(RuleAt(12), message) <==> Contains(message, "feel") && (Contains(message, "bad") || Contains(message, "terrible") || Contains(message, "awful") || Contains(message, "horrible"))
  {
  }

  lemma Rule13Holds(message: string)
    ensures Holds(RuleAt(13), message) <==> Contains(message, "feel") && (Contains(message, "good") || Contains(message, "better") || Contains(message, "okay") || Contains(message, "alright"))
  {
  }

  lemma Rule14Holds(message: string)
    ensures Holds(RuleAt(14), message) <==> Contains(message, "sleep") || Contains(message, "tired") || Contains(message, "exhausted") || Contains(message, "insomnia")
  {
  }

  lemma Rule15Holds(message: string)
    ensures Holds(RuleAt(15), message) <==> Contains(message, "relationship") || Contains(message, "partner") || Contains(message, "friend") || Contains(message, "family") || Contains(message, "breakup") || Contains(message, "divorce")
  {
  }

  lemma Rule16Holds(message: string)
    ensures Holds(RuleAt(16), message) <==> Contains(message, "work") || Contains(message, "job") || Contains(message, "school") || Contains(message, "study") || Contains(message, "career") || Contains(message, "boss") || Contains(message, "colleague")
  {
  }

  lemma Rule17Holds(message: string)
    ensures Holds(RuleAt(17), message) <==> Contains(message, "cope") || Contains(message, "coping") || Contains(message, "self-care") || Contains(message, "therapy") || Contains(message, "meditation") || Contains(message, "exercise")
  {
  }

  lemma AckWordsHolds(message: string)
    ensures AnyOccurs(message, AckWords) <==> Contains(message, "yes") || Contains(message, "no") || Contains(message, "ok") || Contains(message, "okay")
  {
  }

  lemma Rule18Holds(message: string)
    ensures Holds(RuleAt(18), message) <==> |message| < 10 && (Contains(message, "yes") || Contains(message, "no") || Contains(message, "ok") || Contains(message, "okay"))
  {
    AckWordsHolds(message);
  }

  lemma Rule19Holds(message: string)
    ensures Holds(RuleAt(19), message) <==> Contains(message, "time") || Contains(message, "weather") || Contains(message, "superhero") || Contains(message, "movie") || Contains(message, "food") || Contains(message, "sport")
  {
  }

  lemma Rule20Holds(message: string)
    ensures Holds(RuleAt(20), message) <==> Contains(message, "?") && (Contains(message, "what") || Contains(message, "how") || Contains(message, "why") || Contains(message, "who") || Contains(message, "when") || Contains(message, "where"))
  {
  }

  /** The rule table agrees with the nested-if transcription on every input. */
  lemma AsWrittenAgrees(userMessage: string)
    ensures CategoryAsWritten(userMessage) == Classify(userMessage)
  {
    if Rank(Classify(userMessage)) <= 10 {
      AsWrittenAgreesEarly(userMessage);
    } else {
      AsWrittenAgreesLate(userMessage);
    }
  }

  lemma AsWrittenAgreesEarly(userMessage: string)
    requires Rank(Classify(userMessage)) <= 10
    ensures CategoryAsWritten(userMessage) == Classify(userMessage)
  {
    var m := ToLower(userMessage);
    Rule0Holds(m);
    Rule1Holds(m);
    Rule2Holds(m);
    Rule3Holds(m);
    Rule4Holds(m);
    Rule5Holds(m);
    Rule6Holds(m);
    Rule7Holds(m);
    Rule8Holds(m);
    Rule9Holds(m);
    Rule10Holds(m);
    var c := Classify(userMessage);
    CategoryAtRank(c);
    var n := Rank(c);
    if n == 0 {
      assert c == CategoryAt(0);
    }     else if n == 1 {
      assert c == CategoryAt(1);
    }     else if n == 2 {
      assert c == CategoryAt(2);
    }     else if n == 3 {
      assert c == CategoryAt(3);
    }     else if n == 4 {
      assert c == CategoryAt(4);
    }     else if n == 5 {
      assert c == CategoryAt(5);
    }     else if n == 6 {
      assert c == CategoryAt(6);
    }     else if n == 7 {
      assert c == CategoryAt(7);
    }     else if n == 8 {
      assert c == CategoryAt(8);
    }     else if n == 9 {
      assert c == CategoryAt(9);
    } else {
      assert c == CategoryAt(10);
    }
  }

  lemma AsWrittenAgreesLate(userMessage: string)
    requires Rank(Classify(userMessage)) > 10
    ensures CategoryAsWritten(userMessage) == Classify(userMessage)
  {
    var m := ToLower(userMessage);
    Rule0Holds(m);
    Rule1Holds(m);
    Rule2Holds(m);
    Rule3Holds(m);
    Rule4Holds(m);
    Rule5Holds(m);
    Rule6Holds(m);
    Rule7Holds(m);
    Rule8Holds(m);
    Rule9Holds(m);
    Rule10Holds(m);
    Rule11Holds(m);
    Rule12Holds(m);
    Rule13Holds(m);
    Rule14Holds(m);
    Rule15Holds(m);
    Rule16Holds(m);
    Rule17Holds(m);
    Rule18Holds(m);
    Rule19Holds(m);
    Rule20Holds(m);
    var c := Classify(userMessage);
    CategoryAtRank(c);
    var n := Rank(c);
    if n == 11 {
      assert c == CategoryAt(11);
    }     else if n == 12 {
      assert c == CategoryAt(12);
    }     else if n == 13 {
      assert c == CategoryAt(13);
    }     else if n == 14 {
      assert c == CategoryAt(14);
    }     else if n == 15 {
      assert c == CategoryAt(15);
    }     else if n == 16 {
      assert c == CategoryAt(16);
    }     else if n == 17 {
      assert c == CategoryAt(17);
    }     else if n == 18 {
      assert c == CategoryAt(18);
    }     else if n == 19 {
      assert c == CategoryAt(19);
    }     else if n == 20 {
      assert c == CategoryAt(20);
    } else {
      assert c == Supportive;
    }
  }

  /** A rule that holds shadows every later one: the chosen position is at most its own. */
  lemma ShadowedByEarlier(userMessage: string, i: nat)
    requires i < RuleCount && Holds(RuleAt(i), ToLower(userMessage))
    ensures Rank(Classify(userMessage)) <= i
  {
  }

  /** Once the three rules before it fail and a sadness word occurs, the nested test on
      "why" picks between the two sadness templates. */
  lemma SadnessBranch(userMessage: string)
    requires forall j :: 0 <= j < 3 ==> !Holds(RuleAt(j), ToLower(userMessage))
    requires AnyOccurs(ToLower(userMessage), SadnessWords)
    ensures Classify(userMessage) == if Contains(ToLower(userMessage), "why") then SadnessWhy else Sadness
  {
    var m := ToLower(userMessage);
    assert RuleAt(3) == AnyOfBoth(SadnessWords, WhyWord) && RuleAt(4) == AnyOf(SadnessWords);
    if Contains(m, "why") {
      assert "why" in WhyWord;
      FirstMatchWins(userMessage, 3);
    } else {
      assert !AnyOccurs(m, WhyWord);
      FirstMatchWins(userMessage, 4);
    }
  }

  /** Either sadness template is chosen only when a sadness word occurs, the why-variant
      only when "why" occurs as well. */
  lemma SadnessNeedsSadWord(userMessage: string)
    ensures var c := Classify(userMessage);
      (c == SadnessWhy || c == Sadness) ==> AnyOccurs(ToLower(userMessage), SadnessWords)
    ensures Classify(userMessage) == SadnessWhy ==> Contains(ToLower(userMessage), "why")
  {
    var m := ToLower(userMessage);
    Rule3Holds(m);
    Rule4Holds(m);
    assert RuleAt(3) == AnyOfBoth(SadnessWords, WhyWord) && RuleAt(4) == AnyOf(SadnessWords);
  }

  /** The feeling templates need "feel" together with one of their adjectives, wherever
      either occurs. */
  lemma FeelingNeedsBoth(userMessage: string)
    ensures var m := ToLower(userMessage);
      Classify(userMessage) == NegativeFeeling ==>
        Contains(m, "feel") && (Contains(m, "bad") || Contains(m, "terrible") || Contains(m, "awful") || Contains(m, "horrible"))
    ensures var m := ToLower(userMessage);
      Classify(userMessage) == PositiveFeeling ==>
        Contains(m, "feel") && (Contains(m, "good") || Contains(m, "better") || Contains(m, "okay") || Contains(m, "alright"))
  {
    Rule12Holds(ToLower(userMessage));
    Rule13Holds(ToLower(userMessage));
  }

  /** The short acknowledgement needs fewer than ten characters and one of its words; a
      message of ten or more characters never gets it. */
  lemma ShortAckNeedsShort(userMessage: string)
    ensures var m := ToLower(userMessage);
      Classify(userMessage) == ShortAck ==>
        |userMessage| < 10 && (Contains(m, "yes") || Contains(m, "no") || Contains(m, "ok") || Contains(m, "okay"))
    ensures |userMessage| >= 10 ==> Classify(userMessage) != ShortAck
  {
    Rule18Holds(ToLower(userMessage));
  }

  /** The generic question template needs a question mark together with a WH-word. */
  lemma QuestionNeedsMarkAndWh(userMessage: string)
    ensures var m := ToLower(userMessage);
      Classify(userMessage) == Question ==>
        Contains(m, "?") && (Contains(m, "what") || Contains(m, "how") || Contains(m, "why")
          || Contains(m, "who") || Contains(m, "when") || Contains(m, "where"))
  {
    Rule20Holds(ToLower(userMessage));
  }

  /** "time limit" is answered by the duration rule, or an earlier one, never by the later
      off-topic rule that tests "time". */
  lemma TimeLimitNotOffTopic(userMessage: string)
    requires Contains(ToLower(userMessage), "time limit")
    ensures Rank(Classify(userMessage)) <= Rank(Duration)
    ensures Classify(userMessage) != OffTopic
  {
    var m := ToLower(userMessage);
    DurationRuleHolds(m);
    AnsweredByNinthRule(userMessage);
  }

  lemma DurationRuleHolds(m: string)
    requires Contains(m, "time limit")
    ensures Holds(RuleAt(9), m)
  {
    Rule9Holds(m);
  }

  lemma AnsweredByNinthRule(userMessage: string)
    requires Holds(RuleAt(9), ToLower(userMessage))
    ensures Rank(Classify(userMessage)) <= Rank(Duration)
    ensures Classify(userMessage) != OffTopic
  {
    ShadowedByEarlier(userMessage, 9);
    RankAtMostDuration(Classify(userMessage));
  }

  lemma RankAtMostDuration(c: Category)
    requires Rank(c) <= 9
    ensures Rank(c) <= Rank(Duration) && c != OffTopic
  {
  }

  // ---------------------------------------------------------------------------
  // Concrete messages

  // Each lemma below: rule k cannot hold on a text lacking the named characters
  // (or adjacent pairs), since every keyword of the rule contains one of them.
  // Where several messages need the same rule, the lemma takes one character of
  // each keyword, in the rule's order, as parameters.

  lemma Rule0FailsWithoutEI(m: string)
    requires 'e' !in m
    requires 'i' !in m
    ensures !Holds(RuleAt(0), m)
  {
    LacksChar(m, "hello", 'e');
    LacksChar(m, "hey", 'e');
    LacksChar(m, "hi", 'i');
    Rule0Holds(m);
  }

  lemma Rule0FailsWithoutENoHI(m: string)
    requires 'e' !in m
    requires forall i :: 0 <= i < |m| - 1 ==> m[i] != 'h' || m[i + 1] != 'i'
    ensures !Holds(RuleAt(0), m)
  {
    LacksChar(m, "hello", 'e');
    LacksChar(m, "hey", 'e');
    assert OccursAt("hi", ['h', 'i'], 0);
    LacksPair(m, "hi", 'h', 'i');
    Rule0Holds(m);
  }

  lemma Rule0FailsWithoutH(m: string)
    requires 'h' !in m
    ensures !Holds(RuleAt(0), m)
  {
    LacksChar(m, "hello", 'h');
    LacksChar(m, "hey", 'h');
    LacksChar(m, "hi", 'h');
    Rule0Holds(m);
  }

  lemma Rule1FailsWithout(m: string, c0: char, c1: char, c2: char)
    requires c0 in "appreciate" && c0 !in m
    requires c1 in "thank" && c1 !in m
    requires c2 in "thanks" && c2 !in m
    ensures !Holds(RuleAt(1), m)
  {
    LacksChar(m, "appreciate", c0);
    LacksChar(m, "thank", c1);
    LacksChar(m, "thanks", c2);
    Rule1Holds(m);
  }

  lemma Rule2FailsWithout(m: string, c0: char, c1: char, c2: char, c3: char)
    requires c0 in "confused" && c0 !in m
    requires c1 in "don't know" && c1 !in m
    requires c2 in "dont know" && c2 !in m
    requires c3 in "not sure" && c3 !in m
    ensures !Holds(RuleAt(2), m)
  {
    LacksChar(m, "confused", c0);
    LacksChar(m, "don't know", c1);
    LacksChar(m, "dont know", c2);
    LacksChar(m, "not sure", c3);
    Rule2Holds(m);
  }

  lemma Rule3FailsWithoutBD(m: string)
    requires 'b' !in m
    requires 'd' !in m
    ensures !Holds(RuleAt(3), m)
  {
    LacksChar(m, "blue", 'b');
    LacksChar(m, "depressed", 'd');
    LacksChar(m, "down", 'd');
    LacksChar(m, "sad", 'd');
    Rule3Holds(m);
  }

  lemma Rule3FailsWithoutBDS(m: string)
    requires 'b' !in m
    requires 'd' !in m
    requires 's' !in m
    ensures !Holds(RuleAt(3), m)
  {
    LacksChar(m, "blue", 'b');
    LacksChar(m, "depressed", 'd');
    LacksChar(m, "down", 'd');
    LacksChar(m, "sad", 's');
    Rule3Holds(m);
  }

  lemma Rule3FailsWithoutPSUW(m: string)
    requires 'p' !in m
    requires 's' !in m
    requires 'u' !in m
    requires 'w' !in m
    ensures !Holds(RuleAt(3), m)
  {
    LacksChar(m, "blue", 'u');
    LacksChar(m, "depressed", 'p');
    LacksChar(m, "down", 'w');
    LacksChar(m, "sad", 's');
    Rule3Holds(m);
  }

  lemma Rule4FailsWithoutBD(m: string)
    requires 'b' !in m
    requires 'd' !in m
    ensures !Holds(RuleAt(4), m)
  {
    LacksChar(m, "blue", 'b');
    LacksChar(m, "depressed", 'd');
    LacksChar(m, "down", 'd');
    LacksChar(m, "sad", 'd');
    Rule4Holds(m);
  }

  lemma Rule4FailsWithoutBDS(m: string)
    requires 'b' !in m
    requires 'd' !in m
    requires 's' !in m
    ensures !Holds(RuleAt(4), m)
  {
    LacksChar(m, "blue", 'b');
    LacksChar(m, "depressed", 'd');
    LacksChar(m, "down", 'd');
    LacksChar(m, "sad", 's');
    Rule4Holds(m);
  }

  lemma Rule4FailsWithoutPSUW(m: string)
    requires 'p' !in m
    requires 's' !in m
    requires 'u' !in m
    requires 'w' !in m
    ensures !Holds(RuleAt(4), m)
  {
    LacksChar(m, "blue", 'u');
    LacksChar(m, "depressed", 'p');
    LacksChar(m, "down", 'w');
    LacksChar(m, "sad", 's');
    Rule4Holds(m);
  }

  lemma Rule5FailsWithout(m: string, c0: char, c1: char, c2: char, c3: char)
    requires c0 in "alone" && c0 !in m
    requires c1 in "isolated" && c1 !in m
    requires c2 in "lonely" && c2 !in m
    requires c3 in "onely" && c3 !in m
    ensures !Holds(RuleAt(5), m)
  {
    LacksChar(m, "alone", c0);
    LacksChar(m, "isolated", c1);
    LacksChar(m, "lonely", c2);
    LacksChar(m, "onely", c3);
    Rule5Holds(m);
  }

  lemma Rule6FailsWithoutANPW(m: string)
    requires 'a' !in m
    requires 'n' !in m
    requires 'p' !in m
    requires 'w' !in m
    ensures !Holds(RuleAt(6), m)
  {
    LacksChar(m, "anxious", 'a');
    LacksChar(m, "nervous", 'n');
    LacksChar(m, "panic", 'p');
    LacksChar(m, "worried", 'w');
    Rule6Holds(m);
  }

  lemma Rule6FailsWithoutNPW(m: string)
    requires 'n' !in m
    requires 'p' !in m
    requires 'w' !in m
    ensures !Holds(RuleAt(6), m)
  {
    LacksChar(m, "anxious", 'n');
    LacksChar(m, "nervous", 'n');
    LacksChar(m, "panic", 'p');
    LacksChar(m, "worried", 'w');
    Rule6Holds(m);
  }

  lemma Rule7FailsWithoutHW(m: string)
    requires 'h' !in m
    requires 'w' !in m
    ensures !Holds(RuleAt(7), m)
  {
    LacksChar(m, "help", 'h');
    LacksChar(m, "how can you help", 'h');
    LacksChar(m, "what can you do", 'w');
    Rule7Holds(m);
  }

  lemma Rule8FailsWithoutNW(m: string)
    requires 'n' !in m
    requires 'w' !in m
    ensures !Holds(RuleAt(8), m)
  {
    LacksChar(m, "name", 'n');
    LacksChar(m, "what are you", 'w');
    LacksChar(m, "who are you", 'w');
    Rule8Holds(m);
  }

  lemma Rule9FailsWithout(m: string, c0: char, c1: char, c2: char)
    requires c0 in "how long" && c0 !in m
    requires c1 in "stop working" && c1 !in m
    requires c2 in "time limit" && c2 !in m
    ensures !Holds(RuleAt(9), m)
  {
    LacksChar(m, "how long", c0);
    LacksChar(m, "stop working", c1);
    LacksChar(m, "time limit", c2);
    Rule9Holds(m);
  }

  lemma Rule10FailsWithout(m: string, c0: char, c1: char, c2: char)
    requires c0 in "overwhelmed" && c0 !in m
    requires c1 in "pressure" && c1 !in m
    requires c2 in "stressed" && c2 !in m
    ensures !Holds(RuleAt(10), m)
  {
    LacksChar(m, "overwhelmed", c0);
    LacksChar(m, "pressure", c1);
    LacksChar(m, "stressed", c2);
    Rule10Holds(m);
  }

  lemma Rule11FailsWithoutAFIM(m: string)
    requires 'a' !in m
    requires 'f' !in m
    requires 'i' !in m
    requires 'm' !in m
    ensures !Holds(RuleAt(11), m)
  {
    LacksChar(m, "angry", 'a');
    LacksChar(m, "frustrated", 'f');
    LacksChar(m, "irritated", 'i');
    LacksChar(m, "mad", 'm');
    Rule11Holds(m);
  }

  lemma Rule11FailsWithoutMNUNoIR(m: string)
    requires 'm' !in m
    requires 'n' !in m
    requires 'u' !in m
    requires forall i :: 0 <= i < |m| - 1 ==> m[i] != 'i' || m[i + 1] != 'r'
    ensures !Holds(RuleAt(11), m)
  {
    LacksChar(m, "angry", 'n');
    LacksChar(m, "frustrated", 'u');
    LacksChar(m, "mad", 'm');
    assert OccursAt("irritated", ['i', 'r'], 0);
    LacksPair(m, "irritated", 'i', 'r');
    Rule11Holds(m);
  }

  lemma Rule12FailsWithoutF(m: string)
    requires 'f' !in m
    ensures !Holds(RuleAt(12), m) && !Holds(RuleAt(13), m)
  {
    LacksChar(m, "feel", 'f');
    Rule12Holds(m);
    Rule13Holds(m);
  }

  lemma Rule14FailsWithoutEIST(m: string)
    requires 'e' !in m
    requires 'i' !in m
    requires 's' !in m
    requires 't' !in m
    ensures !Holds(RuleAt(14), m)
  {
    LacksChar(m, "exhausted", 'e');
    LacksChar(m, "insomnia", 'i');
    LacksChar(m, "sleep", 's');
    LacksChar(m, "tired", 't');
    Rule14Holds(m);
  }

  lemma Rule15FailsWithoutBDFPR(m: string)
    requires 'b' !in m
    requires 'd' !in m
    requires 'f' !in m
    requires 'p' !in m
    requires 'r' !in m
    ensures !Holds(RuleAt(15), m)
  {
    LacksChar(m, "breakup", 'b');
    LacksChar(m, "divorce", 'd');
    LacksChar(m, "family", 'f');
    LacksChar(m, "friend", 'f');
    LacksChar(m, "partner", 'p');
    LacksChar(m, "relationship", 'r');
    Rule15Holds(m);
  }

  lemma Rule16FailsWithoutBCJSW(m: string)
    requires 'b' !in m
    requires 'c' !in m
    requires 'j' !in m
    requires 's' !in m
    requires 'w' !in m
    ensures !Holds(RuleAt(16), m)
  {
    LacksChar(m, "boss", 'b');
    LacksChar(m, "career", 'c');
    LacksChar(m, "colleague", 'c');
    LacksChar(m, "job", 'j');
    LacksChar(m, "school", 's');
    LacksChar(m, "study", 's');
    LacksChar(m, "work", 'w');
    Rule16Holds(m);
  }

  lemma Rule17FailsWithoutCEMST(m: string)
    requires 'c' !in m
    requires 'e' !in m
    requires 'm' !in m
    requires 's' !in m
    requires 't' !in m
    ensures !Holds(RuleAt(17), m)
  {
    LacksChar(m, "cope", 'c');
    LacksChar(m, "coping", 'c');
    LacksChar(m, "exercise", 'e');
    LacksChar(m, "meditation", 'm');
    LacksChar(m, "self-care", 's');
    LacksChar(m, "therapy", 't');
    Rule17Holds(m);
  }

  lemma Rule18FailsWithoutNOY(m: string)
    requires 'n' !in m
    requires 'o' !in m
    requires 'y' !in m
    ensures !Holds(RuleAt(18), m)
  {
    LacksChar(m, "no", 'n');
    LacksChar(m, "ok", 'o');
    LacksChar(m, "okay", 'o');
    LacksChar(m, "yes", 'y');
    Rule18Holds(m);
  }

  lemma Rule19FailsWithoutFMSTW(m: string)
    requires 'f' !in m
    requires 'm' !in m
    requires 's' !in m
    requires 't' !in m
    requires 'w' !in m
    ensures !Holds(RuleAt(19), m)
  {
    LacksChar(m, "food", 'f');
    LacksChar(m, "movie", 'm');
    LacksChar(m, "sport", 's');
    LacksChar(m, "superhero", 's');
    LacksChar(m, "time", 't');
    LacksChar(m, "weather", 'w');
    Rule19Holds(m);
  }

  lemma Rule20FailsWithoutMark(m: string)
    requires '?' !in m
    ensures !Holds(RuleAt(20), m)
  {
    LacksChar(m, "?", '?');
    Rule20Holds(m);
  }

  /** "I feel so sad, why do I feel this way" is greeted, because "this" contains "hi";
      neither sadness template is reached. */
  lemma SadWhyExample(userMessage: string)
    requires ToLower(userMessage) == "i feel so sad, why do i feel this way"
    ensures Classify(userMessage) == Greeting
  {
    assert OccursAt(ToLower(userMessage), "this", 29);
    HiInsideWords(userMessage);
  }

  lemma GratitudeExampleLacks0(m: string)
    requires m == "thank you so much"
    ensures 'e' !in m && 'i' !in m
  {
  }

  /** The rule chain behind GratitudeExample, from the character facts alone. */
  lemma GratitudeExampleSteps(userMessage: string, m: string)
    requires m == ToLower(userMessage)
    requires 'e' !in m && 'i' !in m
    requires OccursAt(m, "thank", 0)
    ensures Classify(userMessage) == Gratitude
  {
    Rule0FailsWithoutEI(m);
    forall j | 0 <= j < 1 ensures !Holds(RuleAt(j), m) {
      assert j == 0;
    }
    Rule1Holds(m);
    FirstMatchWins(userMessage, 1);
  }

  /** "thank you so much" is thanked: the greeting test fails although "h" occurs. */
  lemma GratitudeExample(userMessage: string)
    requires ToLower(userMessage) == "thank you so much"
    ensures Classify(userMessage) == Gratitude
  {
    var m := ToLower(userMessage);
    GratitudeExampleLacks0(m);
    assert OccursAt(m, "thank", 0);
    GratitudeExampleSteps(userMessage, m);
  }

  lemma NegativeFeelingExampleLacks0(m: string)
    requires m == "i feel terrible today"
    ensures 'c' !in m && 'h' !in m && 'm' !in m && 'n' !in m
  {
  }

  lemma NegativeFeelingExampleLacks1(m: string)
    requires m == "i feel terrible today"
    ensures 'p' !in m && 's' !in m && 'u' !in m && 'v' !in m
  {
  }

  lemma NegativeFeelingExampleLacks2(m: string)
    requires m == "i feel terrible today"
    ensures 'w' !in m
  {
  }

  lemma NegativeFeelingExampleNeverIR(m: string)
    requires m == "i feel terrible today"
    ensures forall i :: 0 <= i < |m| - 1 ==> m[i] != 'i' || m[i + 1] != 'r'
  {
    forall i | 0 <= i < |m| - 1 ensures m[i] != 'i' || m[i + 1] != 'r' {
      assert i == 0 || i == 1 || i == 2 || i == 3 || i == 4 || i == 5 || i == 6 || i == 7 || i == 8 || i == 9 || i == 10 || i == 11 || i == 12 || i == 13 || i == 14 || i == 15 || i == 16 || i == 17 || i == 18 || i == 19;
    }
  }

  /** The rule chain behind NegativeFeelingExample, from the character facts alone. */
  lemma NegativeFeelingExampleMisses(m: string)
    requires 'c' !in m && 'h' !in m && 'm' !in m && 'n' !in m
    requires 'p' !in m && 's' !in m && 'u' !in m && 'v' !in m
    requires 'w' !in m
    requires forall i :: 0 <= i < |m| - 1 ==> m[i] != 'i' || m[i + 1] != 'r'
    ensures forall j :: 0 <= j < 12 ==> !Holds(RuleAt(j), m)
  {
    Rule0FailsWithoutH(m);
    Rule1FailsWithout(m, 'p', 'h', 'h');
    Rule2FailsWithout(m, 'c', 'n', 'n', 'n');
    Rule3FailsWithoutPSUW(m);
    Rule4FailsWithoutPSUW(m);
    Rule5FailsWithout(m, 'n', 's', 'n', 'n');
    Rule6FailsWithoutNPW(m);
    Rule7FailsWithoutHW(m);
    Rule8FailsWithoutNW(m);
    Rule9FailsWithout(m, 'h', 's', 'm');
    Rule10FailsWithout(m, 'v', 'p', 's');
    Rule11FailsWithoutMNUNoIR(m);
    forall j | 0 <= j < 12 ensures !Holds(RuleAt(j), m) {
      assert j == 0 || j == 1 || j == 2 || j == 3 || j == 4 || j == 5 || j == 6 || j == 7 || j == 8 || j == 9 || j == 10 || j == 11;
    }
  }

  lemma NegativeFeelingExampleSteps(userMessage: string, m: string)
    requires m == ToLower(userMessage)
    requires 'c' !in m && 'h' !in m && 'm' !in m && 'n' !in m
    requires 'p' !in m && 's' !in m && 'u' !in m && 'v' !in m
    requires 'w' !in m
    requires forall i :: 0 <= i < |m| - 1 ==> m[i] != 'i' || m[i + 1] != 'r'
    requires OccursAt(m, "feel", 2)
    requires OccursAt(m, "terrible", 7)
    ensures Classify(userMessage) == NegativeFeeling
  {
    NegativeFeelingExampleMisses(m);
    Rule12Holds(m);
    FirstMatchWins(userMessage, 12);
  }

  /** "I feel terrible today" gets the negative-feeling reply. */
  lemma NegativeFeelingExample(userMessage: string)
    requires ToLower(userMessage) == "i feel terrible today"
    ensures Classify(userMessage) == NegativeFeeling
  {
    var m := ToLower(userMessage);
    NegativeFeelingExampleLacks0(m);
    NegativeFeelingExampleLacks1(m);
    NegativeFeelingExampleLacks2(m);
    NegativeFeelingExampleNeverIR(m);
    assert OccursAt(m, "feel", 2);
    assert OccursAt(m, "terrible", 7);
    NegativeFeelingExampleSteps(userMessage, m);
  }

  lemma ShortAckExampleLacks0(m: string)
    requires m == "ok"
    ensures 'a' !in m && 'b' !in m && 'c' !in m && 'd' !in m
  {
  }

  lemma ShortAckExampleLacks1(m: string)
    requires m == "ok"
    ensures 'e' !in m && 'f' !in m && 'h' !in m && 'i' !in m
  {
  }

  lemma ShortAckExampleLacks2(m: string)
    requires m == "ok"
    ensures 'j' !in m && 'l' !in m && 'm' !in m && 'n' !in m
  {
  }

  lemma ShortAckExampleLacks3(m: string)
    requires m == "ok"
    ensures 'p' !in m && 'r' !in m && 's' !in m && 't' !in m
  {
  }

  lemma ShortAckExampleLacks4(m: string)
    requires m == "ok"
    ensures 'v' !in m && 'w' !in m
  {
  }

  /** The rule chain behind ShortAckExample, from the character facts alone. */
  lemma ShortAckExampleMisses(m: string)
    requires 'a' !in m && 'b' !in m && 'c' !in m && 'd' !in m
    requires 'e' !in m && 'f' !in m && 'h' !in m && 'i' !in m
    requires 'j' !in m && 'l' !in m && 'm' !in m && 'n' !in m
    requires 'p' !in m && 'r' !in m && 's' !in m && 't' !in m
    requires 'v' !in m && 'w' !in m
    ensures forall j :: 0 <= j < 18 ==> !Holds(RuleAt(j), m)
  {
    Rule0FailsWithoutH(m);
    Rule1FailsWithout(m, 'a', 't', 't');
    Rule2FailsWithout(m, 'c', 'd', 'd', 'n');
    Rule3FailsWithoutBDS(m);
    Rule4FailsWithoutBDS(m);
    Rule5FailsWithout(m, 'a', 'i', 'l', 'n');
    Rule6FailsWithoutANPW(m);
    Rule7FailsWithoutHW(m);
    Rule8FailsWithoutNW(m);
    Rule9FailsWithout(m, 'h', 's', 't');
    Rule10FailsWithout(m, 'v', 'p', 's');
    Rule11FailsWithoutAFIM(m);
    Rule12FailsWithoutF(m);
    Rule14FailsWithoutEIST(m);
    Rule15FailsWithoutBDFPR(m);
    Rule16FailsWithoutBCJSW(m);
    Rule17FailsWithoutCEMST(m);
    forall j | 0 <= j < 18 ensures !Holds(RuleAt(j), m) {
      assert j == 0 || j == 1 || j == 2 || j == 3 || j == 4 || j == 5 || j == 6 || j == 7 || j == 8 || j == 9 || j == 10 || j == 11 || j == 12 || j == 13 || j == 14 || j == 15 || j == 16 || j == 17;
    }
  }

  lemma ShortAckExampleSteps(userMessage: string, m: string)
    requires m == ToLower(userMessage)
    requires 'a' !in m && 'b' !in m && 'c' !in m && 'd' !in m
    requires 'e' !in m && 'f' !in m && 'h' !in m && 'i' !in m
    requires 'j' !in m && 'l' !in m && 'm' !in m && 'n' !in m
    requires 'p' !in m && 'r' !in m && 's' !in m && 't' !in m
    requires 'v' !in m && 'w' !in m
    requires OccursAt(m, "ok", 0)
    requires |m| < 10
    ensures Classify(userMessage) == ShortAck
  {
    ShortAckExampleMisses(m);
    Rule18Holds(m);
    FirstMatchWins(userMessage, 18);
  }

  /** "ok" gets the short acknowledgement. */
  lemma ShortAckExample(userMessage: string)
    requires ToLower(userMessage) == "ok"
    ensures Classify(userMessage) == ShortAck
  {
    var m := ToLower(userMessage);
    ShortAckExampleLacks0(m);
    ShortAckExampleLacks1(m);
    ShortAckExampleLacks2(m);
    ShortAckExampleLacks3(m);
    ShortAckExampleLacks4(m);
    assert OccursAt(m, "ok", 0);
    assert |m| < 10;
    ShortAckExampleSteps(userMessage, m);
  }

  lemma TimeLimitExampleLacks0(m: string)
    requires m == "time limit"
    ensures 'a' !in m && 'b' !in m && 'c' !in m && 'd' !in m
  {
  }

  lemma TimeLimitExampleLacks1(m: string)
    requires m == "time limit"
    ensures 'h' !in m && 'n' !in m && 'o' !in m && 'p' !in m
  {
  }

  lemma TimeLimitExampleLacks2(m: string)
    requires m == "time limit"
    ensures 's' !in m && 'w' !in m
  {
  }

  /** The rule chain behind TimeLimitExample, from the character facts alone. */
  lemma TimeLimitExampleMisses(m: string)
    requires 'a' !in m && 'b' !in m && 'c' !in m && 'd' !in m
    requires 'h' !in m && 'n' !in m && 'o' !in m && 'p' !in m
    requires 's' !in m && 'w' !in m
    ensures forall j :: 0 <= j < 9 ==> !Holds(RuleAt(j), m)
  {
    Rule0FailsWithoutH(m);
    Rule1FailsWithout(m, 'a', 'h', 'h');
    Rule2FailsWithout(m, 'c', 'd', 'd', 'n');
    Rule3FailsWithoutBDS(m);
    Rule4FailsWithoutBDS(m);
    Rule5FailsWithout(m, 'a', 's', 'o', 'o');
    Rule6FailsWithoutANPW(m);
    Rule7FailsWithoutHW(m);
    Rule8FailsWithoutNW(m);
    forall j | 0 <= j < 9 ensures !Holds(RuleAt(j), m) {
      assert j == 0 || j == 1 || j == 2 || j == 3 || j == 4 || j == 5 || j == 6 || j == 7 || j == 8;
    }
  }

  lemma TimeLimitExampleSteps(userMessage: string, m: string)
    requires m == ToLower(userMessage)
    requires 'a' !in m && 'b' !in m && 'c' !in m && 'd' !in m
    requires 'h' !in m && 'n' !in m && 'o' !in m && 'p' !in m
    requires 's' !in m && 'w' !in m
    requires OccursAt(m, "time limit", 0)
    ensures Classify(userMessage) == Duration
  {
    TimeLimitExampleMisses(m);
    Rule9Holds(m);
    FirstMatchWins(userMessage, 9);
  }

  /** "time limit" gets the duration reply, not the off-topic one. */
  lemma TimeLimitExample(userMessage: string)
    requires ToLower(userMessage) == "time limit"
    ensures Classify(userMessage) == Duration
  {
    var m := ToLower(userMessage);
    TimeLimitExampleLacks0(m);
    TimeLimitExampleLacks1(m);
    TimeLimitExampleLacks2(m);
    assert OccursAt(m, "time limit", 0);
    TimeLimitExampleSteps(userMessage, m);
  }

  lemma AnxiousQuestionExampleLacks0(m: string)
    requires m == "why am i so anxious?"
    ensures 'b' !in m && 'c' !in m && 'd' !in m && 'e' !in m
  {
  }

  lemma AnxiousQuestionExampleLacks1(m: string)
    requires m == "why am i so anxious?"
    ensures 'l' !in m && 'p' !in m && 't' !in m
  {
  }

  lemma AnxiousQuestionExampleNeverHI(m: string)
    requires m == "why am i so anxious?"
    ensures forall i :: 0 <= i < |m| - 1 ==> m[i] != 'h' || m[i + 1] != 'i'
  {
    forall i | 0 <= i < |m| - 1 ensures m[i] != 'h' || m[i + 1] != 'i' {
      assert i == 0 || i == 1 || i == 2 || i == 3 || i == 4 || i == 5 || i == 6 || i == 7 || i == 8 || i == 9 || i == 10 || i == 11 || i == 12 || i == 13 || i == 14 || i == 15 || i == 16 || i == 17 || i == 18;
    }
  }

  /** The rule chain behind AnxiousQuestionExample, from the character facts alone. */
  lemma AnxiousQuestionExampleMisses(m: string)
    requires 'b' !in m && 'c' !in m && 'd' !in m && 'e' !in m
    requires 'l' !in m && 'p' !in m && 't' !in m
    requires forall i :: 0 <= i < |m| - 1 ==> m[i] != 'h' || m[i + 1] != 'i'
    ensures forall j :: 0 <= j < 6 ==> !Holds(RuleAt(j), m)
  {
    Rule0FailsWithoutENoHI(m);
    Rule1FailsWithout(m, 'p', 't', 't');
    Rule2FailsWithout(m, 'c', 'd', 'd', 't');
    Rule3FailsWithoutBD(m);
    Rule4FailsWithoutBD(m);
    Rule5FailsWithout(m, 'l', 'l', 'l', 'e');
    forall j | 0 <= j < 6 ensures !Holds(RuleAt(j), m) {
      assert j == 0 || j == 1 || j == 2 || j == 3 || j == 4 || j == 5;
    }
  }

  lemma AnxiousQuestionExampleSteps(userMessage: string, m: string)
    requires m == ToLower(userMessage)
    requires 'b' !in m && 'c' !in m && 'd' !in m && 'e' !in m
    requires 'l' !in m && 'p' !in m && 't' !in m
    requires forall i :: 0 <= i < |m| - 1 ==> m[i] != 'h' || m[i + 1] != 'i'
    requires OccursAt(m, "anxious", 12)
    ensures Classify(userMessage) == Anxiety
  {
    AnxiousQuestionExampleMisses(m);
    Rule6Holds(m);
    FirstMatchWins(userMessage, 6);
  }

  /** "why am i so anxious?" is answered by the anxiety rule, before the question rule is reached. */
  lemma AnxiousQuestionExample(userMessage: string)
    requires ToLower(userMessage) == "why am i so anxious?"
    ensures Classify(userMessage) == Anxiety
  {
    var m := ToLower(userMessage);
    AnxiousQuestionExampleLacks0(m);
    AnxiousQuestionExampleLacks1(m);
    AnxiousQuestionExampleNeverHI(m);
    assert OccursAt(m, "anxious", 12);
    AnxiousQuestionExampleSteps(userMessage, m);
  }

  lemma EmptyExampleLacks0(m: string)
    requires m == ""
    ensures '?' !in m && 'a' !in m && 'b' !in m && 'c' !in m
  {
  }

  lemma EmptyExampleLacks1(m: string)
    requires m == ""
    ensures 'd' !in m && 'e' !in m && 'f' !in m && 'h' !in m
  {
  }

  lemma EmptyExampleLacks2(m: string)
    requires m == ""
    ensures 'i' !in m && 'j' !in m && 'l' !in m && 'm' !in m
  {
  }

  lemma EmptyExampleLacks3(m: string)
    requires m == ""
    ensures 'n' !in m && 'o' !in m && 'p' !in m && 'r' !in m
  {
  }

  lemma EmptyExampleLacks4(m: string)
    requires m == ""
    ensures 's' !in m && 't' !in m && 'w' !in m && 'y' !in m
  {
  }

  /** The rule chain behind EmptyExample, from the character facts alone. */
  lemma EmptyExampleMisses(m: string)
    requires '?' !in m && 'a' !in m && 'b' !in m && 'c' !in m
    requires 'd' !in m && 'e' !in m && 'f' !in m && 'h' !in m
    requires 'i' !in m && 'j' !in m && 'l' !in m && 'm' !in m
    requires 'n' !in m && 'o' !in m && 'p' !in m && 'r' !in m
    requires 's' !in m && 't' !in m && 'w' !in m && 'y' !in m
    ensures forall j :: 0 <= j < RuleCount ==> !Holds(RuleAt(j), m)
  {
    Rule0FailsWithoutH(m);
    Rule1FailsWithout(m, 'a', 't', 't');
    Rule2FailsWithout(m, 'c', 'd', 'd', 'n');
    Rule3FailsWithoutBDS(m);
    Rule4FailsWithoutBDS(m);
    Rule5FailsWithout(m, 'a', 'i', 'l', 'o');
    Rule6FailsWithoutANPW(m);
    Rule7FailsWithoutHW(m);
    Rule8FailsWithoutNW(m);
    Rule9FailsWithout(m, 'h', 's', 't');
    Rule10FailsWithout(m, 'o', 'p', 's');
    Rule11FailsWithoutAFIM(m);
    Rule12FailsWithoutF(m);
    Rule14FailsWithoutEIST(m);
    Rule15FailsWithoutBDFPR(m);
    Rule16FailsWithoutBCJSW(m);
    Rule17FailsWithoutCEMST(m);
    Rule18FailsWithoutNOY(m);
    Rule19FailsWithoutFMSTW(m);
    Rule20FailsWithoutMark(m);
    forall j | 0 <= j < RuleCount ensures !Holds(RuleAt(j), m) {
      assert j == 0 || j == 1 || j == 2 || j == 3 || j == 4 || j == 5 || j == 6 || j == 7 || j == 8 || j == 9 || j == 10 || j == 11 || j == 12 || j == 13 || j == 14 || j == 15 || j == 16 || j == 17 || j == 18 || j == 19 || j == 20;
    }
  }

  lemma EmptyExampleSteps(userMessage: string, m: string)
    requires m == ToLower(userMessage)
    requires '?' !in m && 'a' !in m && 'b' !in m && 'c' !in m
    requires 'd' !in m && 'e' !in m && 'f' !in m && 'h' !in m
    requires 'i' !in m && 'j' !in m && 'l' !in m && 'm' !in m
    requires 'n' !in m && 'o' !in m && 'p' !in m && 'r' !in m
    requires 's' !in m && 't' !in m && 'w' !in m && 'y' !in m
    ensures Classify(userMessage) == Supportive
  {
    EmptyExampleMisses(m);
  }

  /** The empty message gets the final supportive fallback. */
  lemma EmptyExample(userMessage: string)
    requires ToLower(userMessage) == ""
    ensures Classify(userMessage) == Supportive
  {
    var m := ToLower(userMessage);
    EmptyExampleLacks0(m);
    EmptyExampleLacks1(m);
    EmptyExampleLacks2(m);
    EmptyExampleLacks3(m);
    EmptyExampleLacks4(m);
    EmptyExampleSteps(userMessage, m);
  }
}

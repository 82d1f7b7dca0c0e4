/** The completion client's pure parts: splitting a raw model reply into prose
    and the embedded feedback block, and assembling the chat request. The
    network call itself is a parameter (`Client`), and so is `JSON.parse`. */
module Groq {
  import opened Common

  /** The structured feedback the model is asked to append. A field that is
      missing from the parsed object, or is not a string, is `None`. */
  datatype Feedback = Feedback(grammarFix: Option<string>, betterPhrase: Option<string>, fluencyTip: Option<string>)

  /** What `parseFeedback` returns: the text to display and the feedback, if any. */
  datatype Parsed = Parsed(response: string, feedback: Option<Feedback>)

  /** The key whose presence marks a brace-delimited region as the feedback block. */
  const Key: string := "\"grammarFix\""

  /** The pattern `\{[\s\S]*?"grammarFix"[\s\S]*?\}` matches the span `s[i..k+1]`:
      a `{` at `i`, a `}` at `k`, and the key somewhere strictly after the `{`
      ending no later than the `}`. */
  ghost predicate Matches(s: string, i: nat, k: nat) {
    && OccursAt(s, "{", i)
    && OccursAt(s, "}", k)
    && exists j: nat :: i < j && j + |Key| <= k && OccursAt(s, Key, j)
  }

  /** The span a JavaScript `match` with the lazy pattern selects among all
      spans the pattern matches: the leftmost start, then the shortest. */
  ghost predicate LeftmostShortest(s: string, i: nat, k: nat) {
    && Matches(s, i, k)
    && forall i': nat, k': nat :: Matches(s, i', k') ==> i < i' || (i == i' && k <= k')
  }

  lemma FoundRegion(s: string, i: nat, j: nat, k: nat)
    requires IndexOfFrom(s, "{", 0) == Some(i)
    requires IndexOfFrom(s, Key, i + 1) == Some(j)
    requires IndexOfFrom(s, "}", j + |Key|) == Some(k)
    ensures LeftmostShortest(s, i, k)
  {
    forall i': nat, k': nat | Matches(s, i', k') ensures i < i' || (i == i' && k <= k') {
      var j': nat :| i' < j' && j' + |Key| <= k' && OccursAt(s, Key, j');
      assert i <= i';
      if i == i' {
        assert j <= j';
      }
    }
  }

  /** Every span the pattern matches makes all three searches succeed. */
  lemma MatchFound(s: string, i: nat, k: nat)
    ensures Matches(s, i, k) ==>
              && IndexOfFrom(s, "{", 0).Some?
              && IndexOfFrom(s, Key, IndexOfFrom(s, "{", 0).value + 1).Some?
              && IndexOfFrom(s, "}", IndexOfFrom(s, Key, IndexOfFrom(s, "{", 0).value + 1).value + |Key|).Some?
  {
    if Matches(s, i, k) {
      var j: nat :| i < j && j + |Key| <= k && OccursAt(s, Key, j);
      var i0 := IndexOfFrom(s, "{", 0);
      assert i0.Some? && i0.value <= i;
      var j0 := IndexOfFrom(s, Key, i0.value + 1);
      assert j0.Some? && j0.value <= j;
    }
  }

  lemma NoRegion(s: string)
    requires || IndexOfFrom(s, "{", 0).None?
             || IndexOfFrom(s, Key, IndexOfFrom(s, "{", 0).value + 1).None?
             || IndexOfFrom(s, "}", IndexOfFrom(s, Key, IndexOfFrom(s, "{", 0).value + 1).value + |Key|).None?
    ensures forall i: nat, k: nat :: !Matches(s, i, k)
  {
    forall i: nat, k: nat ensures !Matches(s, i, k) {
      MatchFound(s, i, k);
    }
  }

  /** The regex search as an explicit scan: the first `{`, then the first key
      after it, then the first `}` after that key. */
  function FindRegion(s: string): (r: Option<(nat, nat)>)
    ensures r.Some? ==> LeftmostShortest(s, r.value.0, r.value.1)
    ensures r.Some? ==> forall k: nat :: k < r.value.0 ==> !OccursAt(s, "{", k)
    ensures r.None? ==> forall i: nat, k: nat :: !Matches(s, i, k)
  {
    match IndexOfFrom(s, "{", 0)
    case None => NoRegion(s); None
    case Some(i) =>
      match IndexOfFrom(s, Key, i + 1)
      case None => NoRegion(s); None
      case Some(j) =>
        match IndexOfFrom(s, "}", j + |Key|)
        case None => NoRegion(s); None
        case Some(k) => FoundRegion(s, i, j, k); Some((i, k))
  }

  /** The matched text occurs first at the match itself, because it begins with
      the first `{` of `s`; so `replace(match, '')` cuts exactly that span. */
  lemma RegionFirstOccurrence(s: string, i: nat, k: nat)
    requires Matches(s, i, k)
    requires forall b: nat :: b < i ==> !OccursAt(s, "{", b)
    ensures RemoveFirst(s, s[i..k + 1]) == s[..i] + s[k + 1..]
  {
    var region := s[i..k + 1];
    assert region[..1] == "{";
    forall b: nat | b < i ensures !OccursAt(s, region, b) {
      StartsWith(s, region, "{", b);
    }
    assert OccursAt(s, region, i);
    assert i + |region| == k + 1;
  }

  /** The lazy pattern selects at most one span. */
  lemma SelectedSpanUnique(s: string, i: nat, k: nat)
    requires LeftmostShortest(s, i, k)
    ensures forall i': nat, k': nat :: LeftmostShortest(s, i', k') ==> i' == i && k' == k
  {
  }

  /** An occurrence of a text is also an occurrence of each of its prefixes. */
  lemma StartsWith(s: string, text: string, prefix: string, b: nat)
    requires |prefix| <= |text| && text[..|prefix|] == prefix
    ensures OccursAt(s, text, b) ==> OccursAt(s, prefix, b)
  {
    if OccursAt(s, text, b) {
      assert s[b..b + |prefix|] == text[..|prefix|];
    }
  }

  /** `parseFeedback`: on a match whose text parses, the reply minus that span,
      trimmed, with the parsed feedback; on no match or a parse failure, the raw
      reply unchanged and no feedback. It never fails. */
  function ParseFeedback(raw: string, parse: string -> Option<Feedback>): (p: Parsed)
    ensures p.feedback.None? ==> p.response == raw
    ensures (forall i: nat, k: nat :: !Matches(raw, i, k)) ==> p == Parsed(raw, None)
    ensures forall i: nat, k: nat :: LeftmostShortest(raw, i, k) ==>
              p == (match parse(raw[i..k + 1])
                    case None => Parsed(raw, None)
                    case Some(f) => Parsed(Trim(raw[..i] + raw[k + 1..]), Some(f)))
  {
    match FindRegion(raw)
    case None => Parsed(raw, None)
    case Some((i, k)) =>
      var region := raw[i..k + 1];
      SelectedSpanUnique(raw, i, k);
      match parse(region)
      case None => Parsed(raw, None)
      case Some(f) =>
        RegionFirstOccurrence(raw, i, k);
        Parsed(Trim(RemoveFirst(raw, region)), Some(f))
  }

  lemma BlockMatches(pre: string, body: string, post: string)
    requires Contains(body, Key)
    ensures Matches(pre + "{" + body + "}" + post, |pre|, |pre| + |body| + 1)
  {
    var raw := pre + "{" + body + "}" + post;
    var i, k := |pre|, |pre| + |body| + 1;
    var jb := IndexOfFrom(body, Key, 0).value;
    assert raw[i + 1..k] == body;
    assert raw[i + 1 + jb..i + 1 + jb + |Key|] == body[jb..jb + |Key|];
    assert raw[i..i + 1] == "{";
    assert raw[k..k + 1] == "}";
    assert OccursAt(raw, Key, i + 1 + jb);
  }

  lemma BlockIsFirst(pre: string, body: string, post: string, i': nat, k': nat)
    requires forall c :: c in pre ==> c != '{'
    requires forall c :: c in body ==> c != '}'
    requires Matches(pre + "{" + body + "}" + post, i', k')
    ensures |pre| < i' || (|pre| == i' && |pre| + |body| + 1 <= k')
  {
    var raw := pre + "{" + body + "}" + post;
    var i := |pre|;
    forall x | 0 <= x < i ensures raw[x] != '{' {
      assert raw[x] == pre[x];
      assert pre[x] in pre;
    }
    forall x | i < x < i + 1 + |body| ensures raw[x] != '}' {
      assert raw[x] == body[x - i - 1];
      assert body[x - i - 1] in body;
    }
    var j: nat :| i' < j && j + |Key| <= k' && OccursAt(raw, Key, j);
    assert raw[i'..i' + 1] == "{";
    assert raw[i'] == '{';
    assert raw[k'..k' + 1] == "}";
    assert raw[k'] == '}';
  }

  /** Round trip: prose with one well-formed block in it (the block starts with
      `{`, holds the key, and its only `}` closes it; the prose before it has no
      `{`) comes back as the prose around the block, trimmed, with the block's
      parsed feedback. */
  lemma ParseFeedbackRoundTrip(pre: string, body: string, post: string, parse: string -> Option<Feedback>, f: Feedback)
    requires forall c :: c in pre ==> c != '{'
    requires Contains(body, Key)
    requires forall c :: c in body ==> c != '}'
    requires parse("{" + body + "}") == Some(f)
    ensures ParseFeedback(pre + "{" + body + "}" + post, parse) == Parsed(Trim(pre + post), Some(f))
  {
    var raw := pre + "{" + body + "}" + post;
    var i: nat, k: nat := |pre|, |pre| + |body| + 1;
    BlockMatches(pre, body, post);
    forall i': nat, k': nat | Matches(raw, i', k') ensures i < i' || (i == i' && k <= k') {
      BlockIsFirst(pre, body, post, i', k');
    }
    assert LeftmostShortest(raw, i, k);
    assert raw[i..k + 1] == "{" + body + "}";
    assert raw[..i] == pre;
    assert raw[k + 1..] == post;
  }

  /** Chat roles of the completion API. */
  datatype Role = System | User | Assistant
  datatype ChatMessage = ChatMessage(role: Role, content: string)

  /** The learning goal used when the caller gives none. */
  const DefaultGoal: string := "fluency"

  /** The fixed instructions for the conversation partner. */
  const PracticePrompt: string := @"You are an AI English Conversation Partner. 
Your job is to engage the user in **fast, natural, and context-rich English conversations**. 
Keep your responses short (2–4 sentences), friendly, and supportive.

### Rules:
1. **Role-play realistically** depending on user's chosen goal:
   - Fluency → everyday small talk, deeper casual topics.
   - Interview → ask job-related questions, simulate recruiter style.
   - Academic → ask presentation, debate, or classroom-style questions.
   - Travel → simulate real travel scenarios like ordering food, asking directions.
2. **Adapt difficulty**:
   - If the user makes mistakes, gently correct and re-ask.
   - If fluent, introduce slightly harder words or phrases.
3. **Feedback tags** (for developer to parse):
   - After each reply, include a JSON block with:
     {
       ""grammarFix"": ""suggested grammar correction or 'None'"",
       ""betterPhrase"": ""improved version of user's sentence or 'None'"",
       ""fluencyTip"": ""tip on speaking naturally, or 'None'""
     }
4. **Keep it encouraging**:
   - Always end with a positive nudge (""Good try!"", ""Let's keep going!"").

### Style:
- Warm, encouraging, student-friendly.
- Responses should feel human-like and **fast**.
- No long paragraphs, keep it conversational."

  /** What follows the fixed instructions: the goal, named twice. */
  function GoalLines(goal: string): (t: string)
    ensures OccursAt(t, goal, |"\n\nCurrent learning goal: "|)
    ensures OccursAt(t, goal, |t| - |goal| - |" practice."|)
  {
    var t := "\n\nCurrent learning goal: " + goal + "\nKeep the conversation focused on " + goal + " practice.";
    assert t[|"\n\nCurrent learning goal: "|..][..|goal|] == goal;
    assert t[|t| - |goal| - |" practice."|..][..|goal|] == goal;
    t
  }

  /** The system message: the fixed instructions, then the lines naming the goal. */
  function SystemPrompt(goal: string): (r: string)
    ensures |r| == |PracticePrompt| + |GoalLines(goal)|
    ensures r[..|PracticePrompt|] == PracticePrompt && r[|PracticePrompt|..] == GoalLines(goal)
  {
    PracticePrompt + GoalLines(goal)
  }

  /** The message list of `startPractice`: the system message, the history in
      order, then the new user message. A missing goal means `fluency`. */
  function BuildRequest(userMessage: string, learningGoal: Option<string>, history: seq<ChatMessage>): (r: seq<ChatMessage>)
    ensures |r| == |history| + 2
    ensures r[0] == ChatMessage(System, SystemPrompt(learningGoal.GetOr(DefaultGoal)))
    ensures r[1..|r| - 1] == history
    ensures r[|r| - 1] == ChatMessage(User, userMessage)
  {
    [ChatMessage(System, SystemPrompt(learningGoal.GetOr(DefaultGoal)))] + history + [ChatMessage(User, userMessage)]
  }

  /** The remote completion service as the application configures it: absent
      without an API key; when present, it answers a request with the reply
      text or fails. */
  type Client = Option<seq<ChatMessage> -> Option<string>>

  /** One call of `startPractice`: the request it sent, if any, and its result. */
  datatype Call = Call(sent: Option<seq<ChatMessage>>, result: Result<string, string>)

  const NotConfiguredError: string := "Groq API not configured. Please add your API key to the .env file."
  const RequestFailedError: string := "Failed to get AI response. Please try again."

  /** `startPractice`: without a client it fails before sending anything; with
      one it sends the assembled request, and any failure of the client comes
      back as one fixed message. */
  function StartPractice(client: Client, userMessage: string, learningGoal: Option<string>, history: seq<ChatMessage>): (c: Call)
    ensures client.None? ==> c == Call(None, Failure(NotConfiguredError))
    ensures client.Some? ==> c.sent == Some(BuildRequest(userMessage, learningGoal, history))
    ensures client.Some? ==> (c.result.Success? <==> client.value(c.sent.value).Some?)
    ensures c.result.Success? ==> client.Some? && c.result.value == client.value(c.sent.value).value
    ensures c.result.Failure? ==> c.result.error in {NotConfiguredError, RequestFailedError}
    ensures client.Some? && c.result.Failure? ==> c.result.error == RequestFailedError
  {
    match client
    case None => Call(None, Failure(NotConfiguredError))
    case Some(complete) =>
      var request := BuildRequest(userMessage, learningGoal, history);
      match complete(request)
      case None => Call(Some(request), Failure(RequestFailedError))
      case Some(text) => Call(Some(request), Success(text))
  }
}

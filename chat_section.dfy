/**
 * The demo chat widget on the landing page: a canned reply chosen by the first keyword,
 * in table order, that the lower-cased question contains, and the message list it grows.
 */
module ChatSection {
  import opened Wrappers
  import opened Text

  datatype Message = Message(id: int, text: string, isBot: bool)

  const Greeting := "Hej! Jeg er her for at hjælpe dig med at forstå din gældssituation. Hvad vil du gerne vide om?"
  const DefaultReply := "Tak for dit spørgsmål. Jeg forstår at det kan være forvirrende. Lad mig hjælpe dig med at finde den rigtige løsning til din situation."

  /** The keyword table in its insertion order, which is the order the widget tries it in. */
  const BotResponses: seq<(string, string)> := [
    ("inkasso", "Inkasso betyder, at en virksomhed prøver at inddrive penge, som du skylder. Det er ikke farligt - det er bare en måde at få hjælp til at betale gæld tilbage på en struktureret måde."),
    ("afdragsplan", "En afdragsplan er en aftale om at betale din gæld tilbage i mindre beløb over tid. Vi kan hjælpe dig med at finde en plan, der passer til din økonomi."),
    ("ikke kan betale", "Hvis du ikke kan betale lige nu, er det vigtigste at tage kontakt hurtigst muligt. Der findes altid løsninger - det kan være en betalingsaftale eller anden hjælp."),
    ("debitor kreditor", "Du er debitor (den der skylder penge), og kreditor er den du skylder penge til. Enkelt sagt: du skylder, de får.")
  ]

  /** The reply for an already lower-cased text: the first entry whose keyword it contains, else the fallback. */
  function Reply(table: seq<(string, string)>, fallback: string, low: string): (r: string)
    ensures r == fallback || exists i :: 0 <= i < |table| && r == table[i].1
  {
    if table == [] then fallback
    else if ContainsFrom(low, table[0].0, 0) then table[0].1
    else
      var rest := Reply(table[1..], fallback, low);
      assert forall i :: 1 <= i < |table| ==> table[i] == table[1..][i - 1];
      rest
  }

  /**
   * The reply is the answer of the first keyword the text contains, and the default
   * exactly when it contains none of them.
   */
  lemma {:induction false} ReplyFirstMatch(table: seq<(string, string)>, fallback: string, low: string)
    ensures forall i :: 0 <= i < |table| && Contains(low, table[i].0) && (forall j :: 0 <= j < i ==> !Contains(low, table[j].0))
              ==> Reply(table, fallback, low) == table[i].1
    ensures (forall i :: 0 <= i < |table| ==> !Contains(low, table[i].0)) ==> Reply(table, fallback, low) == fallback
    ensures (exists i :: 0 <= i < |table| && Contains(low, table[i].0)) ==>
              exists i :: 0 <= i < |table| && Contains(low, table[i].0) && Reply(table, fallback, low) == table[i].1
  {
    if table != [] && !ContainsFrom(low, table[0].0, 0) {
      ReplyFirstMatch(table[1..], fallback, low);
      assert forall i :: 1 <= i < |table| ==> table[i] == table[1..][i - 1];
    }
  }

  /** The widget's answer to a question as typed: the reply for its lower-cased form. */
  function Answer(table: seq<(string, string)>, fallback: string, text: string): string {
    Reply(table, fallback, ToLower(text))
  }

  /** The loop of the delayed reply: lower-case the text, then try each keyword in turn and stop at the first hit. */
  method FindReply(table: seq<(string, string)>, fallback: string, text: string) returns (response: string)
    ensures response == Answer(table, fallback, text)
  {
    var lowercaseText := ToLower(text);
    response := fallback;
    var i := 0;
    while i < |table|
      invariant 0 <= i <= |table|
      invariant Reply(table, fallback, lowercaseText) == Reply(table[i..], fallback, lowercaseText)
      invariant response == fallback
    {
      if ContainsFrom(lowercaseText, table[i].0, 0) {
        response := table[i].1;
        break;
      }
      assert table[i..][1..] == table[i + 1..];
      i := i + 1;
    }
  }

  /** The lower-cased sample holds only small letters, spaces, 'å' and '?'. */
  lemma SampleCharacters(q: string, j: nat)
    requires q == "hvad er forskellen på debitor og kreditor?" && j < |q|
    ensures ('a' <= q[j] <= 'z') || q[j] == ' ' || q[j] == '?' || q[j] == 'å'
  {
  }

  /** The only 'k's of the lower-cased sample are those of "forskellen" and "kreditor". */
  lemma SampleKPositions(q: string, j: nat)
    requires q == "hvad er forskellen på debitor og kreditor?" && j < |q| && q[j] == 'k'
    ensures j == 12 || j == 33
  {
  }

  /** The only 'f' of the lower-cased sample is that of "forskellen". */
  lemma SampleFPosition(q: string, j: nat)
    requires q == "hvad er forskellen på debitor og kreditor?" && j < |q| && q[j] == 'f'
    ensures j == 8
  {
  }

  /** Lower-casing changes only the first character when the rest is already lower case. */
  lemma ToLowerByTail(s: string, q: string)
    requires |s| == |q| && 0 < |s| && s[1..] == q[1..] && LowerChar(s[0]) == q[0]
    requires forall i :: 0 < i < |q| ==> LowerChar(q[i]) == q[i]
    ensures ToLower(s) == q
  {
    ToLowerAt(s);
    forall i | 0 < i < |s| ensures ToLower(s)[i] == q[i] {
      assert s[i] == s[1..][i - 1];
    }
  }

  /** The sample question lower-cased. */
  lemma SampleLowerCase(s: string, q: string)
    requires s == "Hvad er forskellen på debitor og kreditor?"
    requires q == "hvad er forskellen på debitor og kreditor?"
    ensures ToLower(s) == q
  {
    forall i | 0 < i < |q| ensures LowerChar(q[i]) == q[i] {
      SampleCharacters(q, i);
    }
    assert s[1..] == q[1..];
    ToLowerByTail(s, q);
  }

  /** Each keyword is absent from the lower-cased sample: a character it needs at a fixed offset is missing there. */
  lemma SampleLacksInkasso(q: string)
    requires q == "hvad er forskellen på debitor og kreditor?"
    ensures !Contains(q, "inkasso")
  {
    var k := "inkasso";
    forall i | 0 <= i <= |q| ensures !InfixAt(q, k, i) {
      if i + |k| <= |q| {
        if q[i + 2] == k[2] {
          SampleKPositions(q, i + 2);
          assert q[i..i + |k|][0] == q[i] != k[0];
        } else {
          assert q[i..i + |k|][2] != k[2];
        }
      }
    }
  }

  lemma SampleLacksAfdragsplan(q: string)
    requires q == "hvad er forskellen på debitor og kreditor?"
    ensures !Contains(q, "afdragsplan")
  {
    var k := "afdragsplan";
    forall i | 0 <= i <= |q| ensures !InfixAt(q, k, i) {
      if i + |k| <= |q| {
        if q[i + 1] == k[1] {
          SampleFPosition(q, i + 1);
          assert q[i..i + |k|][0] == q[i] != k[0];
        } else {
          assert q[i..i + |k|][1] != k[1];
        }
      }
    }
  }

  lemma SampleLacksIkkeKanBetale(q: string)
    requires q == "hvad er forskellen på debitor og kreditor?"
    ensures !Contains(q, "ikke kan betale")
  {
    var k := "ikke kan betale";
    forall i | 0 <= i <= |q| ensures !InfixAt(q, k, i) {
      if i + |k| <= |q| {
        if q[i + 1] == k[1] {
          SampleKPositions(q, i + 1);
          assert q[i..i + |k|][0] == q[i] != k[0];
        } else {
          assert q[i..i + |k|][1] != k[1];
        }
      }
    }
  }

  lemma SampleLacksDebitorKreditor(q: string)
    requires q == "hvad er forskellen på debitor og kreditor?"
    ensures !Contains(q, "debitor kreditor")
  {
    var k := "debitor kreditor";
    forall i | 0 <= i <= |q| ensures !InfixAt(q, k, i) {
      if i + |k| <= |q| {
        if q[i + 8] == k[8] {
          SampleKPositions(q, i + 8);
          assert q[i..i + |k|][0] == q[i] != k[0];
        } else {
          assert q[i..i + |k|][8] != k[8];
        }
      }
    }
  }

  /** The table's keywords, in order. */
  lemma KeywordOrder()
    ensures |BotResponses| == 4
    ensures BotResponses[0].0 == "inkasso" && BotResponses[1].0 == "afdragsplan"
    ensures BotResponses[2].0 == "ikke kan betale" && BotResponses[3].0 == "debitor kreditor"
  {
  }

  /** A lower-cased text without any of the four keywords gets the fallback. */
  lemma ReplyWithoutKeyword(table: seq<(string, string)>, fallback: string, low: string)
    requires |table| == 4
    requires table[0].0 == "inkasso" && table[1].0 == "afdragsplan"
    requires table[2].0 == "ikke kan betale" && table[3].0 == "debitor kreditor"
    requires !Contains(low, "inkasso") && !Contains(low, "afdragsplan")
    requires !Contains(low, "ikke kan betale") && !Contains(low, "debitor kreditor")
    ensures Reply(table, fallback, low) == fallback
  {
    ReplyFirstMatch(table, fallback, low);
  }

  /**
   * Keywords match only as contiguous text: the sample question "Hvad er forskellen på
   * debitor og kreditor?" names both words of "debitor kreditor" but not as that phrase,
   * so it gets the fallback and not the debitor/kreditor answer.
   */
  lemma DebitorSampleGetsDefault(text: string, fallback: string)
    requires text == "Hvad er forskellen på debitor og kreditor?"
    ensures Answer(BotResponses, fallback, text) == fallback
  {
    var low := "hvad er forskellen på debitor og kreditor?";
    SampleLowerCase(text, low);
    SampleLacksInkasso(low);
    SampleLacksAfdragsplan(low);
    SampleLacksIkkeKanBetale(low);
    SampleLacksDebitorKreditor(low);
    KeywordOrder();
    ReplyWithoutKeyword(BotResponses, fallback, low);
  }

  class ChatWidget {
    /** The keyword table the widget answers from. */
    const responses: seq<(string, string)>
    /** The reply when no keyword matches. */
    const fallback: string
    var messages: seq<Message>
    var inputValue: string

    ghost predicate Valid()
      reads this
    {
      |messages| >= 1 && messages[0].id == 1
    }

    constructor ()
      ensures Valid() && messages == [Message(1, Greeting, true)] && inputValue == ""
      ensures responses == BotResponses && fallback == DefaultReply
    {
      responses, fallback := BotResponses, DefaultReply;
      messages := [Message(1, Greeting, true)];
      inputValue := "";
    }

    /**
     * `handleSendMessage`: a blank text changes nothing. Otherwise the user's message gets
     * the id one past the current length and the input is cleared; the bot's reply, with
     * the id two past the length at this moment and its text fixed now, is handed back to
     * be delivered after the delay.
     */
    method Send(text: string) returns (pending: Option<Message>)
      requires Valid()
      modifies this
      ensures Valid()
      ensures Trim(text) == "" ==> messages == old(messages) && inputValue == old(inputValue) && pending == None
      ensures Trim(text) != "" ==>
                && messages == old(messages) + [Message(|old(messages)| + 1, text, false)]
                && inputValue == ""
                && pending == Some(Message(|old(messages)| + 2, Answer(responses, fallback, text), true))
    {
      if Trim(text) == "" {
        return None;
      }
      var n := |messages|;
      var response := FindReply(responses, fallback, text);
      messages := messages + [Message(n + 1, text, false)];
      pending := Some(Message(n + 2, response, true));
      inputValue := "";
    }

    /** The delayed step: the reply is appended to whatever the list holds by then. */
    method Deliver(reply: Message)
      requires Valid()
      modifies this`messages
      ensures Valid() && messages == old(messages) + [reply]
    {
      messages := messages + [reply];
    }
  }
}

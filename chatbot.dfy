/**
 * The help chatbot: a fixed list of questions and answers, a matcher that
 * picks the first entry whose question contains the typed text (ignoring
 * case), and the chat window's state: whether it is open, the message log
 * (which starts with a greeting and is only ever appended to) and the text
 * being typed.
 */
module Chatbot {
  import opened Common
  import opened Text

  datatype Sender = Bot | User

  datatype Message = Message(sender: Sender, text: string)

  datatype Entry = Entry(question: string, answer: string)

  const Greeting := Message(Bot, "Hello! How can I assist you today?")

  const Fallback := "Sorry, I don\U{2019}t understand that question."

  const Faq: seq<Entry> := [
    Entry("What is the MIT Student Marketplace?",
          "MIT Student Marketplace is a platform designed to help MIT students, especially international students, with curated packages of essential items, exclusive discounts, and personalized recommendations."),
    Entry("How can I create an account?",
          "You can create an account by signing up on our platform with your MIT credentials."),
    Entry("What types of products are available?",
          "We offer a variety of products including kitchen essentials, furniture, electronics, study materials, and more."),
    Entry("How do I get the curated packages?",
          "Once you sign up, we offer curated packages tailored to your needs, including essential items and discounts."),
    Entry("Are there any discounts for international students?",
          "Yes, we offer exclusive discounts for international students to make their onboarding experience smoother."),
    Entry("How do I contact support?",
          "You can contact support through our \U{201C}Help\U{201D} section on the website or by emailing support@mitmarketplace.com."),
    Entry("Is the platform only for MIT students?",
          "Yes, the MIT Student Marketplace is exclusive to MIT students.")
  ]

  /** `q.question.toLowerCase().includes(userInput.toLowerCase())`. */
  predicate Matches(e: Entry, input: string)
  {
    Contains(Lower(e.question), Lower(input))
  }

  /** `questionsAndAnswers.find(...)`, as the index of the entry found. */
  function FindIndex(faq: seq<Entry>, input: string): (r: Option<nat>)
    ensures r.Some? ==> r.value < |faq| && Matches(faq[r.value], input)
    ensures r.Some? ==> forall j :: 0 <= j < r.value ==> !Matches(faq[j], input)
    ensures r.None? ==> forall j :: 0 <= j < |faq| ==> !Matches(faq[j], input)
  {
    if faq == [] then None
    else if Matches(faq[0], input) then Some(0)
    else match FindIndex(faq[1..], input)
         case None => None
         case Some(k) => Some(k + 1)
  }

  /** The bot's reply from the list `faq`: the answer found, or the fallback. */
  function Reply(faq: seq<Entry>, input: string): string
  {
    match FindIndex(faq, input)
    case Some(i) => faq[i].answer
    case None => Fallback
  }

  /** The first matching entry is the one answered; with none, the reply is the fallback. */
  lemma ReplySpec(faq: seq<Entry>, input: string)
    ensures (exists i :: 0 <= i < |faq| && Matches(faq[i], input)) ==>
              exists i :: 0 <= i < |faq| && Matches(faq[i], input) &&
                          (forall j :: 0 <= j < i ==> !Matches(faq[j], input)) &&
                          Reply(faq, input) == faq[i].answer
    ensures (forall i :: 0 <= i < |faq| ==> !Matches(faq[i], input)) ==> Reply(faq, input) == Fallback
  {
    match FindIndex(faq, input)
    case Some(i) =>
    case None =>
  }

  lemma {:induction false} LowerIdempotent(s: string)
    ensures Lower(Lower(s)) == Lower(s)
  {
    var l := Lower(s);
    forall i | 0 <= i < |s| ensures Lower(l)[i] == l[i] {
      assert l[i] == LowerChar(s[i]);
    }
  }

  /** Matching ignores the case of what was typed: typing in lower case gets the same reply. */
  lemma ReplyIgnoresCase(faq: seq<Entry>, input: string)
    ensures Reply(faq, Lower(input)) == Reply(faq, input)
  {
    LowerIdempotent(input);
    assert forall e :: Matches(e, Lower(input)) == Matches(e, input);
    FindIndexRespectsMatching(faq, Lower(input), input);
  }

  /** Two inputs that every entry matches alike are answered alike. */
  lemma {:induction false} FindIndexRespectsMatching(faq: seq<Entry>, x: string, y: string)
    requires forall e :: Matches(e, x) == Matches(e, y)
    ensures FindIndex(faq, x) == FindIndex(faq, y)
  {
    if faq != [] {
      FindIndexRespectsMatching(faq[1..], x, y);
    }
  }

  lemma {:induction false} ContainsSelf(s: string)
    ensures Contains(s, s)
  {
    assert s[..|s|] == s;
  }

  /** Typing an entry's own question, when no earlier question contains it, gets that entry's answer. */
  lemma OwnQuestionAnswered(faq: seq<Entry>, i: nat)
    requires i < |faq|
    requires forall j :: 0 <= j < i ==> !Matches(faq[j], faq[i].question)
    ensures Reply(faq, faq[i].question) == faq[i].answer
  {
    ContainsSelf(Lower(faq[i].question));
    assert Matches(faq[i], faq[i].question);
  }

  /** Typing the first question of the list gets the first answer. */
  lemma FirstQuestionAnswered()
    ensures Reply(Faq, Faq[0].question) == Faq[0].answer
  {
    OwnQuestionAnswered(Faq, 0);
  }

  class ChatWindow {
    /** The component's `questionsAndAnswers`. */
    const faq: seq<Entry>
    var isOpen: bool
    /** The message log, in the order shown. */
    var messages: seq<Message>
    /** The text in the input box. */
    var userInput: string

    /** The log starts with the greeting, which stays first. */
    predicate Valid()
      reads this
    {
      |messages| >= 1 && messages[0] == Greeting
    }

    constructor ()
      ensures faq == Faq
      ensures !isOpen && messages == [Greeting] && userInput == ""
      ensures Valid()
    {
      faq := Faq;
      isOpen, messages, userInput := false, [Greeting], "";
    }

    /** `toggleChatWindow`. */
    method Toggle()
      modifies this
      ensures isOpen == !old(isOpen)
      ensures messages == old(messages) && userInput == old(userInput)
    {
      isOpen := !isOpen;
    }

    /** The input's `onChange`. */
    method SetInput(v: string)
      modifies this
      ensures userInput == v
      ensures isOpen == old(isOpen) && messages == old(messages)
    {
      userInput := v;
    }

    /**
     * `handleUserMessage`: blank text does nothing; otherwise the text, as
     * typed, goes into the log, the box is cleared, and the reply follows.
     */
    method HandleUserMessage()
      requires Valid()
      modifies this
      ensures Valid()
      ensures old(messages) <= messages && isOpen == old(isOpen)
      ensures IsBlank(old(userInput)) ==> messages == old(messages) && userInput == old(userInput)
      ensures !IsBlank(old(userInput)) ==>
                messages == old(messages) + [Message(User, old(userInput)), Message(Bot, Reply(faq, old(userInput)))] &&
                userInput == ""
    {
      if !IsBlank(userInput) {
        var typed := userInput;
        messages := messages + [Message(User, typed)];
        userInput := "";
        messages := messages + [Message(Bot, Reply(faq, typed))];
      }
    }

    /** Clicking entry `i`: its question, then exactly its answer, go into the log. */
    method ClickQuestion(i: nat)
      requires Valid()
      requires i < |faq|
      modifies this
      ensures Valid()
      ensures messages == old(messages) + [Message(User, faq[i].question), Message(Bot, faq[i].answer)]
      ensures isOpen == old(isOpen) && userInput == old(userInput)
    {
      messages := messages + [Message(User, faq[i].question)];
      messages := messages + [Message(Bot, faq[i].answer)];
    }
  }
}

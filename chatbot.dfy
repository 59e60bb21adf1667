/**
 * The support chatbot: a reply chosen by ordered, case-insensitive keyword
 * containment with a default, and the send action that appends the user's
 * message and the reply to the transcript and saves it to the backend.
 */
module Chatbot {
  import opened JsValues
  import opened FirebaseModel
  import opened FirebaseProperties
  import FirebaseMock

  // ---------------------------------------------------------------------
  // Strings

  /** ASCII lower-casing of one character. */
  function LowerChar(c: char): char {
    if 'A' <= c <= 'Z' then (c as int + 32) as char else c
  }

  /** `toLowerCase()`, for ASCII letters. */
  function ToLower(s: string): (r: string)
    ensures |r| == |s|
    ensures forall i :: 0 <= i < |s| ==> r[i] == LowerChar(s[i])
  {
    if s == [] then [] else [LowerChar(s[0])] + ToLower(s[1..])
  }

  predicate OccursAt(s: string, word: string, i: nat) {
    i + |word| <= |s| && s[i..i + |word|] == word
  }

  /** `s.includes(word)`. */
  predicate Includes(s: string, word: string) {
    exists i: nat | i <= |s| :: OccursAt(s, word, i)
  }

  // ---------------------------------------------------------------------
  // The reply rule

  const Greeting := "\U{1F44B} Hello! How can I help you with your shopping today?"
  const BuyReply := "\U{1F6D2} To buy: Click any product > Add to Cart > Go to Cart page > Checkout!"
  const SellReply := "\U{1F4B0} To sell: Click Sell > Login > Fill product details > Upload image > List!"
  const ProductReply := "\U{1F4E6} Browse all products on the home page. Click any to see details and seller info!"
  const ShippingReply := "\U{1F69A} Contact the seller directly using the phone number in the order."
  const AccountReply := "\U{1F464} Sign up: Click Login > Sign up > Enter email, password, name, phone."
  const DefaultReply := "\U{1F60A} Ask me about buying, selling, accounts, or shipping!"

  predicate IsGreeting(msg: string) {
    Includes(msg, "hi") || Includes(msg, "hello") || Includes(msg, "hey")
  }

  /** `getAIResponse`: the first rule whose keyword the lower-cased message contains. */
  function Reply(userMessage: string): (r: string)
    ensures r in {Greeting, BuyReply, SellReply, ProductReply, ShippingReply, AccountReply, DefaultReply}
  {
    var msg := ToLower(userMessage);
    if IsGreeting(msg) then Greeting
    else if Includes(msg, "buy") then BuyReply
    else if Includes(msg, "sell") then SellReply
    else if Includes(msg, "product") then ProductReply
    else if Includes(msg, "shipping") then ShippingReply
    else if Includes(msg, "account") then AccountReply
    else DefaultReply
  }

  // ---------------------------------------------------------------------
  // Properties of the reply

  lemma {:induction false} LowerCharIdempotent(c: char)
    ensures LowerChar(LowerChar(c)) == LowerChar(c)
  {
  }

  /** Two messages that differ only in the case of their letters get the same reply. */
  lemma SameReplyUpToCase(a: string, b: string)
    requires |a| == |b|
    requires forall i :: 0 <= i < |a| ==> LowerChar(a[i]) == LowerChar(b[i])
    ensures Reply(a) == Reply(b)
  {
    assert ToLower(a) == ToLower(b);
  }

  /** Lower-casing a message first does not change its reply. */
  lemma ReplyOfLowered(m: string)
    ensures Reply(ToLower(m)) == Reply(m)
  {
    forall i | 0 <= i < |m| ensures LowerChar(ToLower(m)[i]) == LowerChar(m[i]) {
      LowerCharIdempotent(m[i]);
    }
    SameReplyUpToCase(ToLower(m), m);
  }

  /** Any message containing "shipping" contains "hi". */
  lemma ShippingContainsHi(msg: string)
    requires Includes(msg, "shipping")
    ensures Includes(msg, "hi")
  {
    var i: nat :| i <= |msg| && OccursAt(msg, "shipping", i);
    var w := "shipping";
    assert |w| == 8 && msg[i..i + 8] == w;
    assert msg[i + 1] == w[1] == 'h' && msg[i + 2] == w[2] == 'i';
    assert msg[i + 1..i + 3] == "hi";
    assert OccursAt(msg, "hi", i + 1);
  }

  /** The shipping reply is never given: its keyword always triggers the greeting first. */
  lemma ShippingReplyUnreachable(m: string)
    ensures Reply(m) != ShippingReply
  {
    var msg := ToLower(m);
    if Includes(msg, "shipping") {
      ShippingContainsHi(msg);
    }
  }

  /** A greeting word wins over every other keyword. */
  lemma GreetingWins(m: string)
    requires IsGreeting(ToLower(m))
    ensures Reply(m) == Greeting
  {
  }

  /** Rules are tried in order: with no greeting word, "buy" wins over "sell". */
  lemma BuyBeforeSell(m: string)
    requires !IsGreeting(ToLower(m))
    requires Includes(ToLower(m), "buy") && Includes(ToLower(m), "sell")
    ensures Reply(m) == BuyReply
  {
  }

  /** A message with none of the keywords gets the default reply. */
  lemma NoKeywordDefault(m: string)
    requires forall w :: w in ["hi", "hello", "hey", "buy", "sell", "product", "shipping", "account"] ==> !Includes(ToLower(m), w)
    ensures Reply(m) == DefaultReply
  {
  }

  // ---------------------------------------------------------------------
  // Sending

  /** The characters `String.prototype.trim` removes: white space and line terminators. */
  predicate IsJsWhitespace(c: char) {
    || c in {'\t', '\n', '\U{000B}', '\U{000C}', '\r', ' ', '\U{00A0}', '\U{1680}',
             '\U{2028}', '\U{2029}', '\U{202F}', '\U{205F}', '\U{3000}', '\U{FEFF}'}
    || '\U{2000}' <= c <= '\U{200A}'
  }

  /** `!input.trim()`: the input is empty or white space only. */
  predicate IsBlank(s: string) {
    forall i :: 0 <= i < |s| ==> IsJsWhitespace(s[i])
  }

  /** A transcript entry `{id, text, sender, timestamp}`. */
  function MessageValue(id: string, text: string, sender: string, timestamp: string): Value {
    Object(map["id" := Str(id), "text" := Str(text), "sender" := Str(sender), "timestamp" := Str(timestamp)])
  }

  /** The chat widget's component state. */
  class ChatWidget {
    var messages: seq<Value>
    var input: string

    constructor ()
      ensures messages == [] && input == ""
    {
      messages := [];
      input := "";
    }

    /** `loadChatHistory`: adopts the stored transcript when it is an array. */
    method LoadChatHistory(db: FirebaseMock.Backend)
      modifies this`messages
      ensures GetPath(db.State(), ChatPath).List? ==> messages == GetPath(db.State(), ChatPath).elems
      ensures !GetPath(db.State(), ChatPath).List? ==> messages == old(messages)
    {
      var history := db.Get(ChatPath);
      if history.List? {
        messages := history.elems;
      }
    }

    /**
     * `handleSend`, with the two ids (`Date.now()` renderings) and the two
     * timestamps as parameters.
     */
    method HandleSend(db: FirebaseMock.Backend, userId: string, botId: string, userTime: string, botTime: string)
      requires db.Valid()
      modifies this, db`users, db`chatHistory, db`storage
      ensures db.Valid()
      ensures IsBlank(old(input)) ==> unchanged(this) && unchanged(db)
      ensures !IsBlank(old(input)) ==>
                && messages == old(messages) + [MessageValue(userId, old(input), "user", userTime),
                                                MessageValue(botId, Reply(old(input)), "bot", botTime)]
                && input == ""
                && db.State() == old(db.State()).(chatHistory := List(messages))
                && GetPath(db.State(), ChatPath) == List(messages)
                && db.storage == db.Flushed(old(db.storage), db.State())
                && db.Persisted()
    {
      if IsBlank(input) {
        return;
      }
      var userMessage := MessageValue(userId, input, "user", userTime);
      var botResponse := MessageValue(botId, Reply(input), "bot", botTime);
      var updated := messages + [userMessage, botResponse];
      input := "";
      messages := updated;
      assert !StartsWith(ChatPath, UsersPrefix) by {
        assert ChatPath[..|UsersPrefix|][0] == 'c';
      }
      db.Set(ChatPath, List(updated));
      ChatRoundTrip(old(db.State()), List(updated));
    }
  }
}

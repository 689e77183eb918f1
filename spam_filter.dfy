/** SpamFilterReceiver: the high-priority link of the ordered chain. It
    aborts the broadcast when the message mentions "spam" in any case. */
module SpamFilter {
  import opened Platform
  import opened Text
  import opened OrderedConstants

  const BLOCKED_TOAST := "🚫 Spam Filter blocked a message!"

  /** The filter's test: a case-insensitive substring match, as the
      Kotlin call `message.contains("spam", ignoreCase = true)` does. */
  predicate IsSpam(message: string) {
    ContainsIgnoreCase(message, "spam")
  }

  /** `onReceive`: a missing message returns early; a spam message is
      aborted with a toast; a clean one is passed on untouched. */
  function OnReceive(intent: Intent): (e: ReceiveEffect)
    ensures e.aborted <==>
      EXTRA_MESSAGE in intent.extras && intent.extras[EXTRA_MESSAGE].VStr?
      && Occurs(intent.extras[EXTRA_MESSAGE].str, "spam")
    ensures e.toast.Some? <==> e.aborted
    ensures e.toast.Some? ==> e.toast.value == BLOCKED_TOAST
  {
    match GetStringExtra(intent, EXTRA_MESSAGE)
    case None => ReceiveEffect(false, None)
    case Some(message) =>
      ContainsIgnoreCaseCorrect(message, "spam");
      if IsSpam(message) then ReceiveEffect(true, Some(BLOCKED_TOAST))
      else ReceiveEffect(false, None)
  }

  /** Any word that folds to "spam", wherever it sits in the message,
      makes the message spam: "antispam", "Spammer", "SPAM" alike. */
  lemma SpamAnywhere(before: string, word: string, after: string)
    requires Lower(word) == "spam"
    ensures IsSpam(before + word + after)
  {
    var m := before + word + after;
    assert m[|before|..|before| + 4] == word;
    assert OccursAt(m, "spam", |before|);
    ContainsIgnoreCaseCorrect(m, "spam");
  }

  /** A message none of whose letters folds to 's' is never spam. */
  lemma NoSNotSpam(message: string)
    requires forall i :: 0 <= i < |message| ==> LowerChar(message[i]) != 's'
    ensures !IsSpam(message)
  {
    forall i ensures !OccursAt(message, "spam", i) {
      if 0 <= i && i + 4 <= |message| {
        assert Lower(message[i..i + 4])[0] == LowerChar(message[i]);
      }
    }
    ContainsIgnoreCaseCorrect(message, "spam");
  }

  /** The demo's spam message is caught. */
  lemma DemoSpamMessage()
    ensures IsSpam("Buy cheap SPAM now! 🥫")
  {
    SpamAnywhere("Buy cheap ", "SPAM", " now! 🥫");
    assert "Buy cheap " + "SPAM" + " now! 🥫" == "Buy cheap SPAM now! 🥫";
  }

  /** The demo's clean message passes. */
  lemma DemoCleanMessage()
    ensures !IsSpam("Hello Friend! 👋")
  {
    NoSNotSpam("Hello Friend! 👋");
  }

  /** Substring matching blocks words that merely contain "spam". */
  lemma SpamWithinWords()
    ensures IsSpam("antispam") && IsSpam("Spammer")
  {
    SpamAnywhere("anti", "spam", "");
    assert "anti" + "spam" + "" == "antispam";
    SpamAnywhere("", "Spam", "mer");
    assert "" + "Spam" + "mer" == "Spammer";
  }

  /** The decision is a function of the message text alone: two intents
      that carry the same message extra get the same treatment. */
  lemma OnlyMessageMatters(a: Intent, b: Intent)
    requires GetStringExtra(a, EXTRA_MESSAGE) == GetStringExtra(b, EXTRA_MESSAGE)
    ensures OnReceive(a) == OnReceive(b)
  {
  }
}

/** The Jarvis assistant page (frontend/src/pages/JarvisPage.jsx): a hero
    screen until the first message, a first name read from the stored user,
    and a keyword reply with one group fewer than the chat page's and a
    greeting that uses the first name. */
module JarvisPage {
  import opened Wrappers
  import opened Json
  import opened Strings
  import opened Storage
  import Chat
  import Auth

  /** `JSON.parse(localStorage.getItem('automl_user') || '{"name": "User"}')`.
      A missing or empty entry gives the default user. */
  function StoredUser(items: map<string, Item>): (r: Result<Value, string>)
    ensures Auth.USER_KEY !in items ==> r == Ok(Obj(map["name" := Str("User")]))
    ensures Auth.USER_KEY in items && items[Auth.USER_KEY].Object? ==>
      r == Ok(Obj(items[Auth.USER_KEY].record))
  {
    if Auth.USER_KEY !in items then Ok(Obj(map["name" := Str("User")]))
    else
      match items[Auth.USER_KEY]
      case Object(record) => Ok(Obj(record))
      case List(records) => Ok(Arr(seq(|records|, i requires 0 <= i < |records| => Obj(records[i]))))
      case Text(text) => if text == "" then Ok(Obj(map["name" := Str("User")])) else Err("SyntaxError")
  }

  /** `user.name ? user.name.split(' ')[0] : 'User'`. `null` has no
      properties and a truthy name that is not a string has no `split`. */
  function FirstName(user: Value): Result<string, string> {
    match user
    case Null => Err("TypeError")
    case Obj(fields) =>
      var name := Get(fields, "name");
      if !JsTruthyOpt(name) then Ok("User")
      else if name.value.Str? then Ok(Split(name.value.s, ' ')[0])
      else Err("TypeError")
    case _ => Ok("User")
  }

  function PageFirstName(items: map<string, Item>): Result<string, string> {
    var user := StoredUser(items);
    if user.Err? then Err(user.error) else FirstName(user.value)
  }

  /** A non-empty string name gives its first space-separated word: a
      prefix of the name with no space in it, the whole name when it has
      no space, and "User" for a missing or empty one. */
  lemma FirstNameSpec(fields: map<string, Value>)
    ensures "name" !in fields || fields["name"] == Str("") ==> FirstName(Obj(fields)) == Ok("User")
    ensures "name" in fields && fields["name"].Str? && fields["name"].s != "" ==>
      var s := fields["name"].s;
      FirstName(Obj(fields)).Ok? &&
      ' ' !in FirstName(Obj(fields)).value &&
      StartsWith(s, FirstName(Obj(fields)).value) &&
      (' ' !in s ==> FirstName(Obj(fields)).value == s) &&
      (' ' in s ==> StartsWith(s, FirstName(Obj(fields)).value + " "))
  {
    if "name" in fields && fields["name"].Str? && fields["name"].s != "" {
      var s := fields["name"].s;
      if ' ' in s {
        var i := IndexOf(s, ' ');
        assert Split(s, ' ')[0] == s[..i];
        assert s[..i + 1] == s[..i] + " ";
      }
    }
  }

  /** After sign-up with `email`, the page greets the first word of the
      address's local part, or "User" when that part is empty. */
  lemma GreetsSignedUpUser(items: map<string, Item>, email: string)
    ensures var name := Auth.UserName(email);
      PageFirstName(Auth.SignupWrites(items, email)) ==
        Ok(if name == "" then "User" else Split(name, ' ')[0])
  {
    var after := Auth.SignupWrites(items, email);
    assert after[Auth.USER_KEY] == Object(Auth.UserRecord(email));
  }

  const DEFAULT_REPLY := "I'm analyzing your request. Could you provide context?"
  const ACCURACY_REPLY := "Your top model (XGBoost) achieved **96.4% AUC**, which is 1.2% higher than the baseline."
  const HELP_REPLY := "To create a new experiment, go to the **Projects** page, upload your dataset, and click 'Run Experiment'."

  function HelloReply(firstName: string): string {
    "Hello " + firstName + ". Ready to optimize some models today?"
  }

  const GROUPS: seq<seq<string>> := [["accuracy", "performance"], ["help", "create"], ["hello", "hi"]]

  function Replies(firstName: string): seq<string> {
    [ACCURACY_REPLY, HELP_REPLY, HelloReply(firstName), DEFAULT_REPLY]
  }

  /** The reply's if-chain on the lower-cased sent text. */
  function Reply(text: string, firstName: string): string {
    var lower := ToLower(text);
    if Contains(lower, "accuracy") || Contains(lower, "performance") then ACCURACY_REPLY
    else if Contains(lower, "help") || Contains(lower, "create") then HELP_REPLY
    else if Contains(lower, "hello") || Contains(lower, "hi") then HelloReply(firstName)
    else DEFAULT_REPLY
  }

  /** The reply is that of the first keyword group found, the greeting
      carrying the first name, and the default when no group matches. */
  lemma ReplyByPriority(text: string, firstName: string)
    ensures Reply(text, firstName) == Replies(firstName)[Chat.FirstGroup(GROUPS, ToLower(text), 0)]
  {
    var lower := ToLower(text);
    assert Chat.AnyIn(GROUPS[0], lower) <==> Contains(lower, "accuracy") || Contains(lower, "performance") by {
      assert GROUPS[0][0] == "accuracy" && GROUPS[0][1] == "performance";
    }
    assert Chat.AnyIn(GROUPS[1], lower) <==> Contains(lower, "help") || Contains(lower, "create") by {
      assert GROUPS[1][0] == "help" && GROUPS[1][1] == "create";
    }
    assert Chat.AnyIn(GROUPS[2], lower) <==> Contains(lower, "hello") || Contains(lower, "hi") by {
      assert GROUPS[2][0] == "hello" && GROUPS[2][1] == "hi";
    }
  }

  /** Text with an accuracy keyword gets the accuracy line on both pages
      (the wording differs), whatever else it contains. */
  lemma AccuracyFirstOnBothPages(text: string, firstName: string)
    requires Contains(ToLower(text), "accuracy")
    ensures Reply(text, firstName) == ACCURACY_REPLY && Chat.Reply(text) == Chat.ACCURACY_REPLY
  {
  }

  /** `textOverride || inputValue` */
  function SentText(textOverride: Option<string>, inputValue: string): (t: string)
    ensures textOverride.Some? && textOverride.value != "" ==> t == textOverride.value
    ensures textOverride.None? || textOverride.value == "" ==> t == inputValue
  {
    if textOverride.Some? && textOverride.value != "" then textOverride.value else inputValue
  }

  class JarvisView {
    var messages: seq<Chat.Message>
    var inputValue: string
    var isTyping: bool
    /** Texts whose reply has not arrived yet, oldest first. */
    var pending: seq<string>
    const firstName: string

    /** The page renders only when the stored user can be read. */
    constructor (items: map<string, Item>)
      requires PageFirstName(items).Ok?
      ensures firstName == PageFirstName(items).value
      ensures messages == [] && inputValue == "" && !isTyping && pending == []
      ensures !HasStarted()
    {
      firstName := PageFirstName(items).value;
      messages := [];
      inputValue := "";
      isTyping := false;
      pending := [];
    }

    /** The hero screen shows until the transcript has a message. */
    predicate HasStarted()
      reads this
    {
      |messages| > 0
    }

    method SetInput(text: string)
      modifies this
      ensures inputValue == text
      ensures messages == old(messages) && isTyping == old(isTyping) && pending == old(pending)
    {
      inputValue := text;
    }

    /** `handleSend(textOverride)` at clock reading `now`. */
    method HandleSend(textOverride: Option<string>, now: int)
      modifies this
      ensures var text := SentText(textOverride, old(inputValue));
        (IsBlank(text) ==>
          messages == old(messages) && inputValue == old(inputValue) &&
          isTyping == old(isTyping) && pending == old(pending)) &&
        (!IsBlank(text) ==>
          messages == old(messages) + [Chat.Message(now, "user", text)] &&
          inputValue == "" && isTyping && pending == old(pending) + [text] && HasStarted())
    {
      var text := SentText(textOverride, inputValue);
      TrimEmptyIffBlank(text);
      if Trim(text) == "" {
        return;
      }
      messages := messages + [Chat.Message(now, "user", text)];
      inputValue := "";
      isTyping := true;
      pending := pending + [text];
    }

    /** The oldest pending reply arrives at clock reading `now`. */
    method ReplyArrives(now: int)
      requires pending != []
      modifies this
      ensures messages == old(messages) + [Chat.Message(now + 1, "jarvis", Reply(old(pending[0]), firstName))]
      ensures pending == old(pending[1..]) && !isTyping && inputValue == old(inputValue)
      ensures HasStarted()
    {
      messages := messages + [Chat.Message(now + 1, "jarvis", Reply(pending[0], firstName))];
      pending := pending[1..];
      isTyping := false;
    }

    /** "Clear Chat" empties the transcript and brings the hero screen back. */
    method ClearChat()
      modifies this
      ensures messages == [] && !HasStarted()
      ensures inputValue == old(inputValue) && isTyping == old(isTyping) && pending == old(pending)
    {
      messages := [];
    }
  }
}

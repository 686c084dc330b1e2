/** The mock sign-in and sign-up forms (frontend/src/pages/Auth.jsx): after
    an 800 ms delay they write a fixed token and a user record derived from
    the e-mail address to localStorage. */
module Auth {
  import opened Json
  import opened Strings
  import opened Storage

  const TOKEN_KEY := "automl_token"
  const USER_KEY := "automl_user"
  const TOKEN := "mock-token-123"

  /** `email.split('@')[0]`: everything before the first '@'. */
  function UserName(email: string): (name: string)
    ensures '@' !in name && StartsWith(email, name)
    ensures '@' !in email ==> name == email
    ensures '@' in email ==> email[|name|] == '@'
  {
    Split(email, '@')[0]
  }

  /** `{ email, name: email.split('@')[0] }` */
  function UserRecord(email: string): Record {
    map["email" := Str(email), "name" := Str(UserName(email))]
  }

  /** What the sign-up timer writes: the token and the user, whatever was
      typed. */
  function SignupWrites(items: map<string, Item>, email: string): map<string, Item> {
    items[TOKEN_KEY := Text(TOKEN)][USER_KEY := Object(UserRecord(email))]
  }

  /** What the sign-in timer writes: the same as sign-up when both fields
      are filled, nothing otherwise. */
  function LoginWrites(items: map<string, Item>, email: string, password: string): map<string, Item> {
    if email != "" && password != "" then SignupWrites(items, email) else items
  }

  /** Sign-in stores the fixed token and a user named after the address's
      local part exactly when both fields are filled, and touches no other
      key. */
  lemma LoginWritesSpec(items: map<string, Item>, email: string, password: string)
    ensures var after := LoginWrites(items, email, password);
      (email != "" && password != "" ==>
        after[TOKEN_KEY] == Text(TOKEN) &&
        after[USER_KEY] == Object(map["email" := Str(email), "name" := Str(UserName(email))])) &&
      (email == "" || password == "" ==> after == items) &&
      after.Keys - {TOKEN_KEY, USER_KEY} == items.Keys - {TOKEN_KEY, USER_KEY} &&
      forall k :: k in items && k != TOKEN_KEY && k != USER_KEY ==> after[k] == items[k]
  {
  }

  /** The stored name is the address itself when it has no '@'. */
  lemma NameWithoutAt(email: string)
    requires '@' !in email
    ensures SignupWrites(map[], email)[USER_KEY].record["name"] == Str(email)
  {
  }

  /** The sign-in form. Each submit schedules a timer whose closure keeps
      the e-mail and password as they were at that submit; `pending` holds
      those pairs, oldest first. */
  class LoginForm {
    var email: string
    var password: string
    var loading: bool
    var pending: seq<(string, string)>
    const store: LocalStorage

    constructor (store: LocalStorage)
      ensures this.store == store && email == "" && password == "" && !loading && pending == []
    {
      this.store := store;
      email := "";
      password := "";
      loading := false;
      pending := [];
    }

    /** Typing into the inputs, which stay editable while loading. */
    method SetFields(email: string, password: string)
      modifies this
      ensures this.email == email && this.password == password
      ensures loading == old(loading) && pending == old(pending)
    {
      this.email := email;
      this.password := password;
    }

    /** `handleSubmit`: sets loading and schedules the timer with the
        current fields; nothing is written yet. */
    method Submit()
      modifies this
      ensures loading && email == old(email) && password == old(password)
      ensures pending == old(pending) + [(old(email), old(password))]
    {
      loading := true;
      pending := pending + [(email, password)];
    }

    /** The oldest sign-in timer fires: it writes from the pair it captured,
        whatever the fields hold now. */
    method TimerFires()
      requires pending != []
      modifies this, store
      ensures store.items == LoginWrites(old(store.items), old(pending[0].0), old(pending[0].1))
      ensures !loading && pending == old(pending[1..])
      ensures email == old(email) && password == old(password)
    {
      var (e, pw) := pending[0];
      if e != "" && pw != "" {
        store.Set(TOKEN_KEY, Text(TOKEN));
        store.Set(USER_KEY, Object(UserRecord(e)));
      }
      pending := pending[1..];
      loading := false;
    }
  }

  /** Submitting and then clearing the fields before the timer fires still
      signs in with what was submitted. */
  method LoginAfterEdit(form: LoginForm, email: string, password: string)
    requires form.pending == []
    modifies form, form.store
    ensures form.store.items == LoginWrites(old(form.store.items), email, password)
    ensures form.email == "" && form.password == "" && !form.loading && form.pending == []
  {
    form.SetFields(email, password);
    form.Submit();
    form.SetFields("", "");
    form.TimerFires();
  }

  /** The sign-up form; `pending` holds the e-mail each scheduled timer
      captured, oldest first. */
  class SignupForm {
    var email: string
    var password: string
    var loading: bool
    var pending: seq<string>
    const store: LocalStorage

    constructor (store: LocalStorage)
      ensures this.store == store && email == "" && password == "" && !loading && pending == []
    {
      this.store := store;
      email := "";
      password := "";
      loading := false;
      pending := [];
    }

    method SetFields(email: string, password: string)
      modifies this
      ensures this.email == email && this.password == password
      ensures loading == old(loading) && pending == old(pending)
    {
      this.email := email;
      this.password := password;
    }

    method Submit()
      modifies this
      ensures loading && email == old(email) && password == old(password)
      ensures pending == old(pending) + [old(email)]
    {
      loading := true;
      pending := pending + [email];
    }

    /** The oldest sign-up timer fires and writes the e-mail it captured. */
    method TimerFires()
      requires pending != []
      modifies this, store
      ensures store.items == SignupWrites(old(store.items), old(pending[0]))
      ensures !loading && pending == old(pending[1..])
      ensures email == old(email) && password == old(password)
    {
      store.Set(TOKEN_KEY, Text(TOKEN));
      store.Set(USER_KEY, Object(UserRecord(pending[0])));
      pending := pending[1..];
      loading := false;
    }
  }
}

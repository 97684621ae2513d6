/**
 * The user registry: a JSON object from user name to `{"password", "type"}`, kept in a
 * file. The create-user window adds an entry, the login window checks a name and password
 * against it, and the management window lists the users and deletes the selected one.
 * The registry is an ordered association list, as Python dictionaries keep insertion order.
 */
module Users {
  import opened Wrappers
  import opened Text
  import opened JsonValues

  /** The file the create-user window writes when it is opened without a path. */
  const CreateDefaultFile: string := "users.json"
  /** The file the login and management windows read. */
  const UsersFile: string := "config/users.json"

  const NotFoundItem: string := "Arquivo users.json não encontrado."
  const BadJsonItem: string := "Erro ao ler JSON."
  const UnknownType: string := "Desconhecido"

  // ---------------------------------------------------------------------------
  // The registry
  // ---------------------------------------------------------------------------

  type Registry = seq<(string, Json)>

  function Keys(r: Registry): (ks: seq<string>)
    ensures |ks| == |r| && forall i :: 0 <= i < |r| ==> ks[i] == r[i].0
  {
    seq(|r|, i requires 0 <= i < |r| => r[i].0)
  }

  /** No name appears twice, as in a dictionary. */
  predicate Distinct(r: Registry) {
    forall i, j :: 0 <= i < j < |r| ==> r[i].0 != r[j].0
  }

  /** `users.get(k)`. */
  function Get(r: Registry, k: string): (v: Option<Json>)
    ensures v.None? <==> k !in Keys(r)
  {
    if r == [] then None else if r[0].0 == k then Some(r[0].1) else Get(r[1..], k)
  }

  /** `users[k] = v`: replaces the value of an existing name, or appends a new entry. */
  function Put(r: Registry, k: string, v: Json): (r': Registry)
    ensures k in Keys(r) ==> |r'| == |r|
    ensures k !in Keys(r) ==> r' == r + [(k, v)]
  {
    if r == [] then [(k, v)]
    else if r[0].0 == k then [(k, v)] + r[1..]
    else [r[0]] + Put(r[1..], k, v)
  }

  /** `users.pop(k, None)`. */
  function Pop(r: Registry, k: string): (r': Registry)
    ensures |r'| <= |r|
    ensures k !in Keys(r) ==> r' == r
  {
    if r == [] then []
    else if r[0].0 == k then Pop(r[1..], k)
    else [r[0]] + Pop(r[1..], k)
  }

  /** Writing a name makes it read back the new value and leaves every other name as it was. */
  lemma {:induction false} GetPut(r: Registry, k: string, v: Json, k': string)
    ensures Get(Put(r, k, v), k') == if k' == k then Some(v) else Get(r, k')
  {
    if r != [] && r[0].0 != k {
      GetPut(r[1..], k, v, k');
    }
  }

  /** Popping a name removes it and leaves every other name as it was. */
  lemma {:induction false} GetPop(r: Registry, k: string, k': string)
    ensures Get(Pop(r, k), k') == if k' == k then None else Get(r, k')
  {
    if r != [] {
      GetPop(r[1..], k, k');
    }
  }

  lemma PopKeys(r: Registry, k: string)
    ensures forall x :: x in Keys(Pop(r, k)) ==> x in Keys(r) && x != k
  {
    forall x | x in Keys(Pop(r, k)) ensures x in Keys(r) && x != k {
      GetPop(r, k, x);
    }
  }

  /** Popping keeps the names distinct. */
  lemma {:induction false} PopDistinct(r: Registry, k: string)
    requires Distinct(r)
    ensures Distinct(Pop(r, k))
  {
    if r != [] {
      PopDistinct(r[1..], k);
      PopKeys(r[1..], k);
      if r[0].0 != k {
        forall x | x in Keys(Pop(r[1..], k)) ensures x != r[0].0 {
          var i :| 0 <= i < |r[1..]| && r[1..][i].0 == x;
          assert r[i + 1].0 == x;
        }
        assert forall j :: 0 <= j < |Pop(r[1..], k)| ==> Pop(r[1..], k)[j].0 in Keys(Pop(r[1..], k));
      }
    }
  }

  /** Adding a new name keeps the names distinct. */
  lemma PutNewDistinct(r: Registry, k: string, v: Json)
    requires Distinct(r) && k !in Keys(r)
    ensures Distinct(Put(r, k, v))
  {
    assert forall i :: 0 <= i < |r| ==> r[i].0 in Keys(r);
  }

  /** The entry the create-user window writes. */
  function Entry(password: string, userType: string): Json {
    JObject(map["password" := JStr(password), "type" := JStr(userType)])
  }

  /** A file in the store: a registry `json.load` can read, or text it cannot parse. */
  datatype FileContent = Parsed(registry: Registry) | Corrupt

  /** The files the windows read and write, by path; a path not in the map has no file. */
  class FileStore {
    var files: map<string, FileContent>

    constructor (files: map<string, FileContent>)
      ensures this.files == files
    {
      this.files := files;
    }
  }

  // ---------------------------------------------------------------------------
  // Creating a user (`_criar_usuario`)
  // ---------------------------------------------------------------------------

  datatype CreateOutcome =
    | EmptyField     // "Preencha todos os campos."
    | Mismatch       // "As senhas não coincidem."
    | ReadFailed     // the existing file is not valid JSON; `json.load` raises
    | Exists         // "Usuário já existe."
    | Created

  class NewUserWindow {
    const usersFile: string
    var accepted: bool

    /** `NewUserWindow(parent, users_file)`. */
    constructor (usersFile: string)
      ensures this.usersFile == usersFile && !accepted
    {
      this.usersFile := usersFile;
      accepted := false;
    }

    /** `_criar_usuario`: validates the form, then adds `name -> {password, type}` to the
        registry file, which counts as empty when it does not exist. */
    method CreateUser(store: FileStore, usernameText: string, password: string, confirm: string,
                      userType: string) returns (r: CreateOutcome)
      modifies this, store
      ensures var name := Strip(usernameText);
              var before := if usersFile in old(store.files) then old(store.files)[usersFile] else Parsed([]);
              && (r == EmptyField <==> name == [] || password == [])
              && (r == Mismatch <==> name != [] && password != [] && password != confirm)
              && (r == ReadFailed <==> name != [] && password != [] && password == confirm && before.Corrupt?)
              && (r == Exists <==> name != [] && password != [] && password == confirm && before.Parsed?
                                   && name in Keys(before.registry))
              && (r == Created ==> store.files == old(store.files)[usersFile := Parsed(before.registry + [(name, Entry(password, userType))])])
      ensures r != Created ==> store.files == old(store.files)
      ensures accepted == (old(accepted) || r == Created)
    {
      var username := Strip(usernameText);
      if username == [] || password == [] {
        return EmptyField;
      }
      if password != confirm {
        return Mismatch;
      }
      var users: Registry;
      if usersFile in store.files {
        if store.files[usersFile].Corrupt? {
          return ReadFailed;
        }
        users := store.files[usersFile].registry;
      } else {
        users := [];
      }
      if username in Keys(users) {
        return Exists;
      }
      users := Put(users, username, Entry(password, userType));
      store.files := store.files[usersFile := Parsed(users)];
      accepted := true;
      r := Created;
    }
  }

  // ---------------------------------------------------------------------------
  // Logging in (`tentar_login`, `carregar_usuarios`)
  // ---------------------------------------------------------------------------

  /** `carregar_usuarios`: the registry in `config/users.json`; empty when the file is
      missing or unreadable. */
  function LoadUsers(files: map<string, FileContent>): (r: Registry)
    ensures UsersFile !in files || files[UsersFile].Corrupt? ==> r == []
  {
    if UsersFile in files && files[UsersFile].Parsed? then files[UsersFile].registry else []
  }

  datatype LoginOutcome =
    | LoggedIn(name: string, userType: Json)  // callback(name, type), dialog accepted
    | Warned                                  // "Usuario ou senha incorretos."
    | NameErrorRaised                         // the failure branch names an unimported class
    | EntryError                              // the entry is no object or lacks a key

  /** `users[name][key]` on an entry: `None` for the TypeError or KeyError it raises. */
  function Field(entry: Json, key: string): (r: Option<Json>)
    ensures r.Some? <==> entry.JObject? && key in entry.fields
  {
    if entry.JObject? && key in entry.fields then Some(entry.fields[key]) else None
  }

  /** How the login check ends once the registry is read: `fail` is what the failure
      branch does. */
  function CheckLogin(users: Registry, name: string, password: string, fail: LoginOutcome): (r: LoginOutcome)
  {
    match Get(users, name)
    case None => fail
    case Some(entry) =>
      match Field(entry, "password")
      case None => EntryError
      case Some(stored) =>
        if stored != JStr(password) then fail
        else match Field(entry, "type")
          case None => EntryError
          case Some(t) => LoggedIn(name, t)
  }

  /** `tentar_login` as written: a failed login reaches `QMessageBox.warning`, which the
      module never imports. */
  function TentarLoginAsWritten(files: map<string, FileContent>, usernameText: string, passwordText: string): (r: LoginOutcome)
    ensures r != Warned
  {
    CheckLogin(LoadUsers(files), Strip(usernameText), Strip(passwordText), NameErrorRaised)
  }

  /** `tentar_login` with the warning shown on failure. */
  function TentarLogin(files: map<string, FileContent>, usernameText: string, passwordText: string): (r: LoginOutcome)
    ensures r != NameErrorRaised
  {
    CheckLogin(LoadUsers(files), Strip(usernameText), Strip(passwordText), Warned)
  }

  /** A login succeeds exactly when the stripped name is registered and its stored password
      is the stripped password; the callback then receives the name and the stored type. */
  lemma LoginSucceedsIff(files: map<string, FileContent>, usernameText: string, passwordText: string)
    ensures var users := LoadUsers(files);
            var name := Strip(usernameText);
            var r := TentarLogin(files, usernameText, passwordText);
            && (r.LoggedIn? <==>
                  (Get(users, name).Some?
                   && Field(Get(users, name).value, "password") == Some(JStr(Strip(passwordText)))
                   && Field(Get(users, name).value, "type").Some?))
            && (r.LoggedIn? ==> r.name == name && Some(r.userType) == Field(Get(users, name).value, "type"))
            && (r == Warned <==>
                  (Get(users, name).None?
                   || (Field(Get(users, name).value, "password").Some?
                       && Field(Get(users, name).value, "password") != Some(JStr(Strip(passwordText))))))
  {
  }

  /** Without a readable registry file every login fails. */
  lemma NoFileNoLogin(files: map<string, FileContent>, usernameText: string, passwordText: string)
    requires UsersFile !in files || files[UsersFile].Corrupt?
    ensures TentarLogin(files, usernameText, passwordText) == Warned
  {
  }

  /** As written, every login that should show the warning raises instead, and every other
      outcome is the same. */
  lemma LoginFailureRaises(files: map<string, FileContent>, usernameText: string, passwordText: string)
    ensures TentarLoginAsWritten(files, usernameText, passwordText) ==
            if TentarLogin(files, usernameText, passwordText) == Warned then NameErrorRaised
            else TentarLogin(files, usernameText, passwordText)
  {
  }

  /** The password is stored as typed but compared after stripping, so a password with
      surrounding white space never logs in. */
  lemma SpacedPasswordNeverLogsIn(files: map<string, FileContent>, name: string, password: string,
                                  userType: string, typed: string)
    requires UsersFile in files && files[UsersFile] == Parsed([(name, Entry(password, userType))])
    requires Strip(password) != password
    ensures !TentarLogin(files, name, typed).LoggedIn?
  {
    var t := Strip(typed);
    StripNoSpace(t);
    WrongPasswordFails(LoadUsers(files), name, password, userType, Strip(name), t);
  }

  /** A registry of one user turns away every password but the stored one. */
  lemma WrongPasswordFails(users: Registry, name: string, password: string, userType: string,
                           k: string, t: string)
    requires users == [(name, Entry(password, userType))] && t != password
    ensures CheckLogin(users, k, t, Warned) == Warned
  {
    assert Field(Entry(password, userType), "password") == Some(JStr(password));
  }

  /** With the file the main window opens it with, a user just created cannot log in while
      the login registry lacks that name. */
  method CreatedUserCannotLogIn(store: FileStore, usernameText: string, password: string, userType: string)
      returns (created: CreateOutcome, login: LoginOutcome)
    modifies store
    requires UsersFile in store.files && store.files[UsersFile].Parsed?
    requires Strip(usernameText) !in Keys(store.files[UsersFile].registry)
    ensures created == Created ==> login == Warned
  {
    var window := new NewUserWindow(CreateDefaultFile);
    created := window.CreateUser(store, usernameText, password, password, userType);
    login := TentarLogin(store.files, usernameText, password);
  }

  /** With the login window's file, a user just created logs in with the same name and a
      password without surrounding white space, and gets the type chosen. */
  method CreatedUserCanLogIn(store: FileStore, usernameText: string, password: string, userType: string)
      returns (created: CreateOutcome, login: LoginOutcome)
    modifies store
    requires Strip(password) == password
    ensures created == Created ==> login == LoggedIn(Strip(usernameText), JStr(userType))
  {
    var window := new NewUserWindow(UsersFile);
    ghost var users := LoadUsers(store.files);
    created := window.CreateUser(store, usernameText, password, password, userType);
    if created == Created {
      assert store.files[UsersFile] == Parsed(users + [(Strip(usernameText), Entry(password, userType))]);
      LoginAfterCreate(users, Strip(usernameText), password, userType);
    }
    login := TentarLogin(store.files, usernameText, password);
  }

  /** A name appended to a registry that lacked it logs in with its password. */
  lemma LoginAfterCreate(users: Registry, name: string, password: string, userType: string)
    requires name !in Keys(users)
    ensures CheckLogin(users + [(name, Entry(password, userType))], name, password, Warned) == LoggedIn(name, JStr(userType))
  {
    GetAppended(users, name, Entry(password, userType));
    assert Field(Entry(password, userType), "password") == Some(JStr(password));
    assert Field(Entry(password, userType), "type") == Some(JStr(userType));
  }

  lemma {:induction false} GetAppended(r: Registry, k: string, v: Json)
    requires k !in Keys(r)
    ensures Get(r + [(k, v)], k) == Some(v)
  {
    if r != [] {
      assert (r + [(k, v)])[1..] == r[1..] + [(k, v)];
      assert Keys(r)[1..] == Keys(r[1..]);
      GetAppended(r[1..], k, v);
    }
  }

  // ---------------------------------------------------------------------------
  // Managing users (`load_users`, `delete_selected_users`)
  // ---------------------------------------------------------------------------

  /** A list entry: `f"{username} ({user_type})"`. */
  function ItemText(name: string, typeText: string): string {
    name + " (" + typeText + ")"
  }

  /** `info.get("type", "Desconhecido")` as text; `None` for the AttributeError of an entry
      that is no object. The text of a non-string type is a foreign formatter's. */
  function TypeText(info: Json, repr: Json -> string): (r: Option<string>)
    ensures info.JObject? && "type" !in info.fields ==> r == Some(UnknownType)
    ensures info.JObject? && "type" in info.fields && info.fields["type"].JStr? ==> r == Some(info.fields["type"].s)
    ensures r.None? <==> !info.JObject?
  {
    if !info.JObject? then None
    else if "type" in info.fields then Some(PyStr(info.fields["type"], repr))
    else Some(UnknownType)
  }

  /** The list entries of a registry, in order, up to the first entry that is no object. */
  function Items(r: Registry, repr: Json -> string): (items: seq<string>)
    ensures |items| <= |r|
    ensures forall i :: 0 <= i < |items| ==> TypeText(r[i].1, repr).Some? && items[i] == ItemText(r[i].0, TypeText(r[i].1, repr).value)
    ensures |items| < |r| ==> TypeText(r[|items|].1, repr).None?
  {
    if r == [] then []
    else match TypeText(r[0].1, repr)
      case None => []
      case Some(t) => [ItemText(r[0].0, t)] + Items(r[1..], repr)
  }

  /** The loop of `load_users` that adds the rows: it stops at the first entry that is no
      object. */
  method ListItems(data: Registry, repr: Json -> string) returns (rows: seq<string>)
    ensures rows == Items(data, repr)
  {
    rows := [];
    var i := 0;
    while i < |data|
      invariant 0 <= i <= |data|
      invariant Items(data, repr) == rows + Items(data[i..], repr)
    {
      var t := TypeText(data[i].1, repr);
      assert data[i..][1..] == data[i + 1..];
      if t.None? {
        return;
      }
      rows := rows + [ItemText(data[i].0, t.value)];
      i := i + 1;
    }
  }

  /** The name a list entry is deleted by: `text.split(" ")[0]`. */
  function ParsedName(text: string): string {
    BeforeFirstSpace(text)
  }

  /** A name without spaces is parsed back from its list entry. */
  lemma ParsedNameOfItem(name: string, typeText: string)
    requires forall i :: 0 <= i < |name| ==> name[i] != ' '
    ensures ParsedName(ItemText(name, typeText)) == name
  {
    assert ItemText(name, typeText) == name + " " + ("(" + typeText + ")");
    ParsedNameBeforeSpace(name, "(" + typeText + ")");
  }

  /** The parsed name of a text is its part before the first space. */
  lemma ParsedNameBeforeSpace(name: string, rest: string)
    requires forall i :: 0 <= i < |name| ==> name[i] != ' '
    ensures ParsedName(name + " " + rest) == name
  {
    var s := name + " " + rest;
    var r := ParsedName(s);
    assert s[|name|] == ' ';
    assert r == s[..|name|] == name;
  }

  /** The names the selected rows are deleted by, as written. */
  function ParsedNames(selected: seq<string>): (names: seq<string>)
    ensures |names| == |selected|
  {
    seq(|selected|, i requires 0 <= i < |selected| => ParsedName(selected[i]))
  }

  /** The names of the users shown in the given rows. */
  function RowNames(r: Registry, rows: seq<nat>): (names: seq<string>)
    requires forall i :: 0 <= i < |rows| ==> rows[i] < |r|
    ensures |names| == |rows| && forall i :: 0 <= i < |rows| ==> names[i] == r[rows[i]].0
  {
    seq(|rows|, i requires 0 <= i < |rows| => r[rows[i]].0)
  }

  /** Pops each name in turn. */
  function PopAll(r: Registry, names: seq<string>): (r': Registry)
    decreases |names|
  {
    if names == [] then r else PopAll(Pop(r, names[0]), names[1..])
  }

  /** Deleting removes exactly the given names; every other user keeps its entry. */
  lemma {:induction false} GetPopAll(r: Registry, names: seq<string>, k: string)
    decreases |names|
    ensures Get(PopAll(r, names), k) == if k in names then None else Get(r, k)
  {
    if names != [] {
      GetPopAll(Pop(r, names[0]), names[1..], k);
      GetPop(r, names[0], k);
      if k !in names[1..] && k != names[0] {
        assert k !in names;
      }
    }
  }

  class ManageUserWindow {
    const usersFile: string
    /** `users_data`. */
    var usersData: Registry
    /** The text of the list's rows. */
    var items: seq<string>

    /** `__init__` up to `load_users`. */
    constructor (usersFile: string)
      ensures this.usersFile == usersFile && usersData == [] && items == []
    {
      this.usersFile := usersFile;
      usersData := [];
      items := [];
    }

    /** `load_users`: a message row when the file is missing or unreadable (the registry
        kept in memory does not change), otherwise the registry and one row per user. A
        user entry that is no object stops the listing with an AttributeError (`ok` false). */
    method LoadUsers(store: FileStore, repr: Json -> string) returns (ok: bool)
      modifies this
      ensures usersFile !in store.files ==> items == [NotFoundItem] && usersData == old(usersData) && ok
      ensures usersFile in store.files && store.files[usersFile].Corrupt? ==>
                items == [BadJsonItem] && usersData == old(usersData) && ok
      ensures usersFile in store.files && store.files[usersFile].Parsed? ==>
                usersData == store.files[usersFile].registry && items == Items(usersData, repr)
                && (ok <==> |items| == |usersData|)
    {
      if usersFile !in store.files {
        items := [NotFoundItem];
        return true;
      }
      if store.files[usersFile].Corrupt? {
        items := [BadJsonItem];
        return true;
      }
      usersData := store.files[usersFile].registry;
      items := ListItems(usersData, repr);
      ok := |items| == |usersData|;
    }

    /** `delete_selected_users` as written: each selected row's text up to its first space
        is popped from the registry, the file is rewritten and the list reloaded. Nothing
        happens without a selection. */
    method DeleteSelectedAsWritten(store: FileStore, selected: seq<string>, repr: Json -> string)
      modifies this, store
      ensures selected == [] ==> store.files == old(store.files) && usersData == old(usersData) && items == old(items)
      ensures selected != [] ==>
                store.files == old(store.files)[usersFile := Parsed(PopAll(old(usersData), ParsedNames(selected)))]
                && usersData == PopAll(old(usersData), ParsedNames(selected))
                && items == Items(usersData, repr)
    {
      if selected == [] {
        return;
      }
      usersData := PopSelected(usersData, selected);
      store.files := store.files[usersFile := Parsed(usersData)];
      var _ := LoadUsers(store, repr);
    }

    /** `delete_selected_users` deleting the users of the selected rows: the row numbers
        index the registry the list was built from. */
    method DeleteSelectedRows(store: FileStore, rows: seq<nat>, repr: Json -> string)
      modifies this, store
      requires forall i :: 0 <= i < |rows| ==> rows[i] < |usersData|
      ensures rows == [] ==> store.files == old(store.files) && usersData == old(usersData) && items == old(items)
      ensures rows != [] ==>
                store.files == old(store.files)[usersFile := Parsed(PopAll(old(usersData), RowNames(old(usersData), rows)))]
                && usersData == PopAll(old(usersData), RowNames(old(usersData), rows))
                && items == Items(usersData, repr)
    {
      if rows == [] {
        return;
      }
      usersData := PopRows(usersData, rows);
      store.files := store.files[usersFile := Parsed(usersData)];
      var _ := LoadUsers(store, repr);
    }
  }

  /** The loop of `delete_selected_users` as written: pops the text before the first space
      of each selected row, in selection order. */
  method PopSelected(data: Registry, selected: seq<string>) returns (r: Registry)
    ensures r == PopAll(data, ParsedNames(selected))
  {
    ghost var names := ParsedNames(selected);
    r := data;
    var i := 0;
    while i < |selected|
      invariant 0 <= i <= |selected|
      invariant r == PopAll(data, names[..i])
    {
      assert names[i] == ParsedName(selected[i]);
      PopAllStep(data, names, i);
      r := Pop(r, ParsedName(selected[i]));
      i := i + 1;
    }
    assert names[..i] == names;
  }

  /** The same loop popping the names of the selected rows of the registry shown. */
  method PopRows(data: Registry, rows: seq<nat>) returns (r: Registry)
    requires forall i :: 0 <= i < |rows| ==> rows[i] < |data|
    ensures r == PopAll(data, RowNames(data, rows))
  {
    ghost var names := RowNames(data, rows);
    r := data;
    var i := 0;
    while i < |rows|
      invariant 0 <= i <= |rows|
      invariant r == PopAll(data, names[..i])
    {
      assert names[i] == data[rows[i]].0;
      PopAllStep(data, names, i);
      r := Pop(r, data[rows[i]].0);
      i := i + 1;
    }
    assert names[..i] == names;
  }

  /** One more name of the list popped. */
  lemma PopAllStep(r: Registry, names: seq<string>, i: nat)
    requires i < |names|
    ensures PopAll(r, names[..i + 1]) == Pop(PopAll(r, names[..i]), names[i])
  {
    PopAllSnoc(r, names[..i], names[i]);
    assert names[..i + 1] == names[..i] + [names[i]];
  }

  lemma {:induction false} PopAllSnoc(r: Registry, names: seq<string>, k: string)
    decreases |names|
    ensures PopAll(r, names + [k]) == Pop(PopAll(r, names), k)
  {
    if names != [] {
      assert (names + [k])[1..] == names[1..] + [k];
      PopAllSnoc(Pop(r, names[0]), names[1..], k);
    }
  }

  /** As written, deleting the row of a user whose name holds a space deletes the user named
      by the text before the space: with users "ana" and "ana maria", selecting
      "ana maria (User)" deletes "ana" and keeps "ana maria". */
  lemma SpacedNameDeletesOther()
    ensures var r: Registry := [("ana", Entry("a", "User")), ("ana maria", Entry("b", "User"))];
            var names := [ParsedName(ItemText("ana maria", "User"))];
            Get(PopAll(r, names), "ana").None? && Get(PopAll(r, names), "ana maria").Some?
  {
    var r: Registry := [("ana", Entry("a", "User")), ("ana maria", Entry("b", "User"))];
    assert ItemText("ana maria", "User") == "ana" + " " + "maria (User)";
    ParsedNameBeforeSpace("ana", "maria (User)");
    GetPopAll(r, ["ana"], "ana");
    GetPopAll(r, ["ana"], "ana maria");
  }

  /** Deleting by rows removes exactly the users shown in the selected rows. */
  lemma DeleteRowsExact(r: Registry, rows: seq<nat>, k: string)
    requires forall i :: 0 <= i < |rows| ==> rows[i] < |r|
    ensures Get(PopAll(r, RowNames(r, rows)), k) ==
            if exists i :: 0 <= i < |rows| && r[rows[i]].0 == k then None else Get(r, k)
  {
    var names := RowNames(r, rows);
    GetPopAll(r, names, k);
    if exists i :: 0 <= i < |rows| && r[rows[i]].0 == k {
      var i :| 0 <= i < |rows| && r[rows[i]].0 == k;
      assert names[i] == k;
    }
  }
}

/** The request handlers: the `users` service (post, get, put, delete over the "users"
    directory of the store), `ping` and `notFound`. */
module Handlers {
  import opened Js
  import Data

  const UsersDir := "users"

  /** What a handler hands to its callback: a status code and a payload (`undefined` when the
      handler passes none). `Threw` is a handler that throws before calling back. */
  datatype Reply = Reply(status: JsValue, payload: JsValue) | Threw

  /** A store of files, and what a handler answered together with the store it left. */
  type Files = map<Data.Path, Data.FileText>

  datatype Handled = Handled(reply: Reply, files: Files)

  /** The `data` object the router builds for a handler. */
  datatype Request = Request(path: string, httpMethod: string, query: map<string, JsValue>, payload: JsValue)

  function Status(code: int): Reply {
    Reply(Num(code as real), Undefined)
  }

  function ErrorReply(code: int, message: string): Reply {
    Reply(Num(code as real), Obj(map["Error" := Str(message)]))
  }

  const MissingRequiredFields := "Missing required fields"
  const MissingRequiredField := "Missing required field"
  const MissingFieldsToUpdate := "Missing fields to update"
  const UserExists := "A user with that phone number already exists"
  const CouldNotHash := "Could not hash user password"
  const CouldNotCreate := "Could not create a new user"
  const CouldNotUpdate := "Could not update user data"
  const UserDoesNotExist := "User does not exist"
  const CouldNotDelete := "Could not delete user"
  const CouldNotFindUser := "Could not find user"

  /** `ping`: always 200. */
  function Ping(): (r: Reply)
    ensures r.Reply? && r.status == Num(200.0)
  {
    Status(200)
  }

  /** `notFound`: always 404. */
  function NotFound(): (r: Reply)
    ensures r.Reply? && r.status == Num(404.0)
  {
    Status(404)
  }

  // ---------------------------------------------------------------------------
  // field validation

  /** `typeof x == 'string' && x.trim().length > 0 ? x.trim() : false` */
  function TrimmedNonEmpty(v: JsValue): (r: JsValue)
    ensures Truthy(r) <==> v.Str? && Trim(v.s) != ""
    ensures Truthy(r) ==> r == Str(Trim(v.s))
  {
    if v.Str? && |Trim(v.s)| > 0 then Str(Trim(v.s)) else Bool(false)
  }

  /** `typeof x == 'string' && x.trim().length > 0 ? x : false`: put keeps the text untrimmed. */
  function UntrimmedNonEmpty(v: JsValue): (r: JsValue)
    ensures Truthy(r) <==> v.Str? && Trim(v.s) != ""
    ensures Truthy(r) ==> r == v
  {
    if v.Str? && |Trim(v.s)| > 0 then v else Bool(false)
  }

  /** `typeof x == 'string' && x.trim().length == 10 ? x.trim() : false` */
  function TrimmedPhone(v: JsValue): (r: JsValue)
    ensures Truthy(r) <==> v.Str? && |Trim(v.s)| == 10
    ensures Truthy(r) ==> r == Str(Trim(v.s))
  {
    if v.Str? && |Trim(v.s)| == 10 then Str(Trim(v.s)) else Bool(false)
  }

  /** helpers.hash over an opaque HMAC-SHA256: a non-empty string is hashed, anything else
      gives `false`. */
  function Hash(hmac: string -> string, v: JsValue): (r: JsValue)
    ensures v.Str? && v.s != "" ==> r == Str(hmac(v.s))
    ensures !(v.Str? && v.s != "") ==> r == Bool(false)
  {
    if v.Str? && |v.s| > 0 then Str(hmac(v.s)) else Bool(false)
  }

  /** Destructuring `let {…} = x` throws exactly on null and undefined. */
  predicate Destructurable(v: JsValue) {
    !v.Null? && !v.Undefined?
  }

  /** The condition post requires of its payload. */
  predicate PostFieldsValid(payload: JsValue) {
    && Truthy(TrimmedNonEmpty(Get(payload, "firstName")))
    && Truthy(TrimmedNonEmpty(Get(payload, "lastName")))
    && Truthy(TrimmedPhone(Get(payload, "phone")))
    && Truthy(TrimmedNonEmpty(Get(payload, "password")))
    && Get(payload, "tosAgreement") == Bool(true)
  }

  /** The record post stores. */
  function UserObject(firstName: string, lastName: string, phone: string, hashedPassword: JsValue): JsValue {
    Obj(map["firstName" := Str(firstName), "lastName" := Str(lastName), "phone" := Str(phone),
            "hashedPassword" := hashedPassword, "tosAgreement" := Bool(true)])
  }

  /** The record post would store for a payload with valid fields. */
  function NewUser(payload: JsValue, hmac: string -> string): JsValue
    requires PostFieldsValid(payload)
  {
    UserObject(Trim(Get(payload, "firstName").s), Trim(Get(payload, "lastName").s),
               Trim(Get(payload, "phone").s), Hash(hmac, TrimmedNonEmpty(Get(payload, "password"))))
  }

  function UserPath(phone: string): Data.Path {
    Data.Path(UsersDir, phone)
  }

  // ---------------------------------------------------------------------------
  // the four user operations, as functions of the store

  /** `_users.post`: a new user is stored under the trimmed phone, never over an existing one. */
  function PostSpec(files: Files, payload: JsValue, hmac: string -> string): (h: Handled)
    ensures !Destructurable(payload) ==> h == Handled(Threw, files)
    ensures Destructurable(payload) && !PostFieldsValid(payload) ==>
              h == Handled(ErrorReply(400, MissingRequiredFields), files)
    ensures h.files != files <==> h.reply == Status(200)
    ensures h.reply == Status(200) <==>
              && Destructurable(payload) && PostFieldsValid(payload)
              && UserPath(Trim(Get(payload, "phone").s)) !in files
              && hmac(Trim(Get(payload, "password").s)) != ""
    ensures h.reply == Status(200) ==>
              h.files == files[UserPath(Trim(Get(payload, "phone").s)) := Data.Json(NewUser(payload, hmac))]
    ensures Destructurable(payload) && PostFieldsValid(payload) && UserPath(Trim(Get(payload, "phone").s)) in files ==>
              h == Handled(ErrorReply(400, UserExists), files)
  {
    if !Destructurable(payload) then Handled(Threw, files)
    else if !PostFieldsValid(payload) then Handled(ErrorReply(400, MissingRequiredFields), files)
    else
      var path := UserPath(Trim(Get(payload, "phone").s));
      match Data.ReadFile(files, path)
      case Missing =>
        var hashedPassword := Hash(hmac, TrimmedNonEmpty(Get(payload, "password")));
        if Truthy(hashedPassword) then Handled(Status(200), files[path := Data.Json(NewUser(payload, hmac))])
        else Handled(ErrorReply(500, CouldNotHash), files)
      case Loaded(_) => Handled(ErrorReply(400, UserExists), files)
      case Empty => Handled(ErrorReply(400, UserExists), files)
  }

  /** `delete data.hashedPassword` on what `read` returned. */
  function WithoutPassword(v: JsValue): (r: JsValue)
    ensures v.Obj? ==> r == Obj(v.props - {"hashedPassword"})
    ensures !v.Obj? ==> r == v
  {
    if v.Obj? then Obj(v.props - {"hashedPassword"}) else v
  }

  /** `_users.get`: the stored record without its password hash, 404 for an absent (or empty,
      or falsy) record, 400 for an invalid phone. */
  function GetSpec(files: Files, query: map<string, JsValue>): (r: Reply)
    ensures r.Reply?
    ensures !Truthy(TrimmedPhone(Prop(query, "phone"))) ==> r == ErrorReply(400, MissingRequiredFields)
    ensures r.status == Num(200.0) <==>
              && Truthy(TrimmedPhone(Prop(query, "phone")))
              && var path := UserPath(Trim(Prop(query, "phone").s));
                 path in files && Data.ReadFile(files, path).Loaded? && Truthy(Data.ReadFile(files, path).data)
    ensures r.status == Num(200.0) ==>
              r.payload == WithoutPassword(Data.ReadFile(files, UserPath(Trim(Prop(query, "phone").s))).data)
    ensures Truthy(TrimmedPhone(Prop(query, "phone"))) && r.status != Num(200.0) ==> r == Status(404)
  {
    var phone := TrimmedPhone(Prop(query, "phone"));
    if !Truthy(phone) then ErrorReply(400, MissingRequiredFields)
    else match Data.ReadFile(files, UserPath(phone.s))
      case Loaded(data) => if Truthy(data) then Reply(Num(200.0), WithoutPassword(data)) else Status(404)
      case Missing => Status(404)
      case Empty => Status(404)
  }

  /** The record put writes back: only the supplied fields are set, with their untrimmed text;
      the password is hashed untrimmed. Setting a field of a non-object is a no-op. */
  function Updated(data: JsValue, firstName: JsValue, lastName: JsValue, password: JsValue, hmac: string -> string): (r: JsValue)
    ensures data.Obj? ==> (r.Obj? && r.props.Keys ==
              data.props.Keys + (if Truthy(firstName) then {"firstName"} else {})
                              + (if Truthy(lastName) then {"lastName"} else {})
                              + (if Truthy(password) then {"hashedPassword"} else {}))
    ensures data.Obj? ==> forall k :: k in data.props && k !in {"firstName", "lastName", "hashedPassword"} ==>
              r.props[k] == data.props[k]
    ensures data.Obj? ==> Prop(r.props, "firstName") == if Truthy(firstName) then firstName else Prop(data.props, "firstName")
    ensures data.Obj? ==> Prop(r.props, "lastName") == if Truthy(lastName) then lastName else Prop(data.props, "lastName")
    ensures data.Obj? ==> (Prop(r.props, "hashedPassword") ==
              if Truthy(password) then Hash(hmac, password) else Prop(data.props, "hashedPassword"))
    ensures !data.Obj? ==> r == data
  {
    var a := if Truthy(firstName) then SetProp(data, "firstName", firstName) else data;
    var b := if Truthy(lastName) then SetProp(a, "lastName", lastName) else a;
    if Truthy(password) then SetProp(b, "hashedPassword", Hash(hmac, password)) else b
  }

  /** `_users.put`: an existing user's supplied fields are replaced; nothing else is. */
  function PutSpec(files: Files, payload: JsValue, hmac: string -> string): (h: Handled)
    ensures !Destructurable(payload) ==> h == Handled(Threw, files)
    ensures h.files != files ==> h.reply == Status(200)
    ensures h.reply == Status(200) <==>
              && Destructurable(payload)
              && Truthy(TrimmedPhone(Get(payload, "phone")))
              && (|| Truthy(UntrimmedNonEmpty(Get(payload, "firstName")))
                  || Truthy(UntrimmedNonEmpty(Get(payload, "lastName")))
                  || Truthy(UntrimmedNonEmpty(Get(payload, "password"))))
              && var path := UserPath(Trim(Get(payload, "phone").s));
                 path in files && Data.ReadFile(files, path).Loaded? && Truthy(Data.ReadFile(files, path).data)
    ensures h.reply == Status(200) ==>
              var path := UserPath(Trim(Get(payload, "phone").s));
              h.files == files[path := Data.Json(Updated(Data.ReadFile(files, path).data,
                                                          UntrimmedNonEmpty(Get(payload, "firstName")),
                                                          UntrimmedNonEmpty(Get(payload, "lastName")),
                                                          UntrimmedNonEmpty(Get(payload, "password")), hmac))]
    ensures Destructurable(payload) && !Truthy(TrimmedPhone(Get(payload, "phone"))) ==>
              h == Handled(ErrorReply(400, MissingRequiredField), files)
    ensures Destructurable(payload) && Truthy(TrimmedPhone(Get(payload, "phone")))
            && !Truthy(UntrimmedNonEmpty(Get(payload, "firstName")))
            && !Truthy(UntrimmedNonEmpty(Get(payload, "lastName")))
            && !Truthy(UntrimmedNonEmpty(Get(payload, "password"))) ==>
              h == Handled(ErrorReply(400, MissingFieldsToUpdate), files)
    ensures Destructurable(payload) && Truthy(TrimmedPhone(Get(payload, "phone")))
            && (|| Truthy(UntrimmedNonEmpty(Get(payload, "firstName")))
                || Truthy(UntrimmedNonEmpty(Get(payload, "lastName")))
                || Truthy(UntrimmedNonEmpty(Get(payload, "password"))))
            && h.reply != Status(200) ==>
              h == Handled(ErrorReply(400, UserDoesNotExist), files)
  {
    if !Destructurable(payload) then Handled(Threw, files)
    else
      var phone := TrimmedPhone(Get(payload, "phone"));
      var firstName := UntrimmedNonEmpty(Get(payload, "firstName"));
      var lastName := UntrimmedNonEmpty(Get(payload, "lastName"));
      var password := UntrimmedNonEmpty(Get(payload, "password"));
      if !Truthy(phone) then Handled(ErrorReply(400, MissingRequiredField), files)
      else if !(Truthy(firstName) || Truthy(lastName) || Truthy(password)) then
        Handled(ErrorReply(400, MissingFieldsToUpdate), files)
      else
        var path := UserPath(phone.s);
        match Data.ReadFile(files, path)
        case Loaded(data) =>
          if Truthy(data) then Handled(Status(200), files[path := Data.Json(Updated(data, firstName, lastName, password, hmac))])
          else Handled(ErrorReply(400, UserDoesNotExist), files)
        case Missing => Handled(ErrorReply(400, UserDoesNotExist), files)
        case Empty => Handled(ErrorReply(400, UserDoesNotExist), files)
  }

  /** `_users.delete`: removes exactly the user's file when it holds a truthy record. */
  function DeleteSpec(files: Files, query: map<string, JsValue>): (h: Handled)
    ensures !Truthy(TrimmedPhone(Prop(query, "phone"))) ==> h == Handled(ErrorReply(400, MissingRequiredField), files)
    ensures h.files != files <==> h.reply == Status(200)
    ensures h.reply == Status(200) <==>
              && Truthy(TrimmedPhone(Prop(query, "phone")))
              && var path := UserPath(Trim(Prop(query, "phone").s));
                 path in files && Data.ReadFile(files, path).Loaded? && Truthy(Data.ReadFile(files, path).data)
    ensures h.reply == Status(200) ==> h.files == files - {UserPath(Trim(Prop(query, "phone").s))}
    ensures Truthy(TrimmedPhone(Prop(query, "phone"))) && h.reply != Status(200) ==>
              h == Handled(ErrorReply(400, CouldNotFindUser), files)
  {
    var phone := TrimmedPhone(Prop(query, "phone"));
    if !Truthy(phone) then Handled(ErrorReply(400, MissingRequiredField), files)
    else
      var path := UserPath(phone.s);
      match Data.ReadFile(files, path)
      case Loaded(data) =>
        if Truthy(data) then Handled(Status(200), files - {path})
        else Handled(ErrorReply(400, CouldNotFindUser), files)
      case Missing => Handled(ErrorReply(400, CouldNotFindUser), files)
      case Empty => Handled(ErrorReply(400, CouldNotFindUser), files)
  }

  predicate AcceptableMethod(httpMethod: string) {
    httpMethod in ["post", "get", "put", "delete"]
  }

  /** `handlers.users`: the sub-handler named by the method, or 405 with the store untouched. */
  function UsersSpec(files: Files, req: Request, hmac: string -> string): (h: Handled)
    ensures !AcceptableMethod(req.httpMethod) ==> h == Handled(Status(405), files)
    ensures req.httpMethod == "get" ==> h.files == files
  {
    if req.httpMethod == "post" then PostSpec(files, req.payload, hmac)
    else if req.httpMethod == "get" then Handled(GetSpec(files, req.query), files)
    else if req.httpMethod == "put" then PutSpec(files, req.payload, hmac)
    else if req.httpMethod == "delete" then DeleteSpec(files, req.query)
    else Handled(Status(405), files)
  }

  // ---------------------------------------------------------------------------
  // properties across operations

  /** Every stored user is an object whose `phone` is its own key and whose `tosAgreement` is
      true. */
  ghost predicate UsersConsistent(files: Files) {
    forall p :: p in files && p.dir == UsersDir ==>
      && files[p].Json? && files[p].value.Obj?
      && Prop(files[p].value.props, "phone") == Str(p.file)
      && Prop(files[p].value.props, "tosAgreement") == Bool(true)
  }

  /** A post stores a record whose `phone` is the key it is stored under. */
  lemma PostKeepsConsistency(files: Files, payload: JsValue, hmac: string -> string)
    requires UsersConsistent(files)
    ensures UsersConsistent(PostSpec(files, payload, hmac).files)
  {
    if PostSpec(files, payload, hmac).reply == Status(200) {
      var phone := Trim(Get(payload, "phone").s);
      assert Prop(NewUser(payload, hmac).props, "phone") == Str(phone);
    }
  }

  /** A put rewrites only names and the password hash of a consistent record. */
  lemma PutKeepsConsistency(files: Files, payload: JsValue, hmac: string -> string)
    requires UsersConsistent(files)
    ensures UsersConsistent(PutSpec(files, payload, hmac).files)
  {
    if PutSpec(files, payload, hmac).reply == Status(200) {
      var path := UserPath(Trim(Get(payload, "phone").s));
      var data := Data.ReadFile(files, path).data;
      assert data == files[path].value;
      var r := Updated(data, UntrimmedNonEmpty(Get(payload, "firstName")),
                       UntrimmedNonEmpty(Get(payload, "lastName")),
                       UntrimmedNonEmpty(Get(payload, "password")), hmac);
      assert Prop(r.props, "phone") == Prop(data.props, "phone");
      assert Prop(r.props, "tosAgreement") == Prop(data.props, "tosAgreement");
    }
  }

  /** Every request through `users` keeps the store consistent. */
  lemma UsersKeepConsistency(files: Files, req: Request, hmac: string -> string)
    requires UsersConsistent(files)
    ensures UsersConsistent(UsersSpec(files, req, hmac).files)
  {
    if req.httpMethod == "post" {
      PostKeepsConsistency(files, req.payload, hmac);
    } else if req.httpMethod == "put" {
      PutKeepsConsistency(files, req.payload, hmac);
    }
  }

  /** A user created by post is then returned by get, under the trimmed phone, with every
      stored field but the password hash. */
  lemma {:induction false} PostThenGet(files: Files, payload: JsValue, hmac: string -> string)
    requires Destructurable(payload) && PostFieldsValid(payload)
    requires UserPath(Trim(Get(payload, "phone").s)) !in files
    requires hmac(Trim(Get(payload, "password").s)) != ""
    ensures var phone := Trim(Get(payload, "phone").s);
            var h := PostSpec(files, payload, hmac);
            && h.reply == Status(200)
            && GetSpec(h.files, map["phone" := Str(phone)]) ==
                 Reply(Num(200.0), Obj(map["firstName" := Str(Trim(Get(payload, "firstName").s)),
                                           "lastName" := Str(Trim(Get(payload, "lastName").s)),
                                           "phone" := Str(phone), "tosAgreement" := Bool(true)]))
  {
    var phone := Trim(Get(payload, "phone").s);
    StripIdempotent(Get(payload, "phone").s, IsSpace);
    assert Trim(phone) == phone;
    var user := NewUser(payload, hmac);
    assert user.props - {"hashedPassword"} ==
           map["firstName" := Str(Trim(Get(payload, "firstName").s)), "lastName" := Str(Trim(Get(payload, "lastName").s)),
               "phone" := Str(phone), "tosAgreement" := Bool(true)];
  }

  /** Posting the same user twice: the second post is refused and changes nothing. */
  lemma PostTwiceRefused(files: Files, payload: JsValue, hmac: string -> string)
    requires PostSpec(files, payload, hmac).reply == Status(200)
    ensures var once := PostSpec(files, payload, hmac).files;
            PostSpec(once, payload, hmac) == Handled(ErrorReply(400, UserExists), once)
  {
  }

  /** After a successful delete, get and a second delete find no user. */
  lemma DeleteThenGet(files: Files, query: map<string, JsValue>)
    requires DeleteSpec(files, query).reply == Status(200)
    ensures var after := DeleteSpec(files, query).files;
            && GetSpec(after, query) == Status(404)
            && DeleteSpec(after, query) == Handled(ErrorReply(400, CouldNotFindUser), after)
  {
  }

  /** A put never changes who the user is: `phone` and `tosAgreement` are kept. */
  lemma PutKeepsIdentity(files: Files, payload: JsValue, hmac: string -> string)
    requires UsersConsistent(files)
    requires PutSpec(files, payload, hmac).reply == Status(200)
    ensures var path := UserPath(Trim(Get(payload, "phone").s));
            var after := PutSpec(files, payload, hmac).files;
            && path in files && after.Keys == files.Keys
            && after[path].Json? && after[path].value.Obj?
            && Prop(after[path].value.props, "phone") == Prop(files[path].value.props, "phone")
            && Prop(after[path].value.props, "tosAgreement") == Bool(true)
  {
    var path := UserPath(Trim(Get(payload, "phone").s));
    assert Data.ReadFile(files, path).data == files[path].value;
  }

  // ---------------------------------------------------------------------------
  // the handlers over the mutable store

  /** `_users.post` */
  method Post(store: Data.FileStore, payload: JsValue, hmac: string -> string) returns (r: Reply)
    modifies store
    ensures Handled(r, store.files) == PostSpec(old(store.files), payload, hmac)
  {
    if !Destructurable(payload) {
      return Threw;
    }
    var firstName := TrimmedNonEmpty(Get(payload, "firstName"));
    var lastName := TrimmedNonEmpty(Get(payload, "lastName"));
    var phone := TrimmedPhone(Get(payload, "phone"));
    var password := TrimmedNonEmpty(Get(payload, "password"));
    var tosAgreement := Get(payload, "tosAgreement") == Bool(true);
    if !(Truthy(firstName) && Truthy(lastName) && Truthy(phone) && Truthy(password) && tosAgreement) {
      return ErrorReply(400, MissingRequiredFields);
    }
    var existing := store.Read(UsersDir, phone.s);
    if !existing.Missing? {
      return ErrorReply(400, UserExists);
    }
    var hashedPassword := Hash(hmac, password);
    if !Truthy(hashedPassword) {
      return ErrorReply(500, CouldNotHash);
    }
    var userObject := UserObject(firstName.s, lastName.s, phone.s, hashedPassword);
    var err := store.Create(UsersDir, phone.s, userObject);
    if err.None? {
      r := Status(200);
    } else {
      r := ErrorReply(500, CouldNotCreate);
    }
  }

  /** `_users.get`: reads only. */
  method GetUser(store: Data.FileStore, query: map<string, JsValue>) returns (r: Reply)
    ensures r == GetSpec(store.files, query)
  {
    var phone := TrimmedPhone(Prop(query, "phone"));
    if !Truthy(phone) {
      return ErrorReply(400, MissingRequiredFields);
    }
    var read := store.Read(UsersDir, phone.s);
    if read.Loaded? && Truthy(read.data) {
      r := Reply(Num(200.0), WithoutPassword(read.data));
    } else {
      r := Status(404);
    }
  }

  /** `_users.put` */
  method Put(store: Data.FileStore, payload: JsValue, hmac: string -> string) returns (r: Reply)
    modifies store
    ensures Handled(r, store.files) == PutSpec(old(store.files), payload, hmac)
  {
    if !Destructurable(payload) {
      return Threw;
    }
    var phone := TrimmedPhone(Get(payload, "phone"));
    var firstName := UntrimmedNonEmpty(Get(payload, "firstName"));
    var lastName := UntrimmedNonEmpty(Get(payload, "lastName"));
    var password := UntrimmedNonEmpty(Get(payload, "password"));
    if !Truthy(phone) {
      return ErrorReply(400, MissingRequiredField);
    }
    if !(Truthy(firstName) || Truthy(lastName) || Truthy(password)) {
      return ErrorReply(400, MissingFieldsToUpdate);
    }
    var read := store.Read(UsersDir, phone.s);
    if !(read.Loaded? && Truthy(read.data)) {
      return ErrorReply(400, UserDoesNotExist);
    }
    var data := read.data;
    if Truthy(firstName) {
      data := SetProp(data, "firstName", firstName);
    }
    if Truthy(lastName) {
      data := SetProp(data, "lastName", lastName);
    }
    if Truthy(password) {
      data := SetProp(data, "hashedPassword", Hash(hmac, password));
    }
    var err := store.Update(UsersDir, phone.s, data);
    if err.None? {
      r := Status(200);
    } else {
      r := ErrorReply(500, CouldNotUpdate);
    }
  }

  /** `_users.delete` */
  method Delete(store: Data.FileStore, query: map<string, JsValue>) returns (r: Reply)
    modifies store
    ensures Handled(r, store.files) == DeleteSpec(old(store.files), query)
  {
    var phone := TrimmedPhone(Prop(query, "phone"));
    if !Truthy(phone) {
      return ErrorReply(400, MissingRequiredField);
    }
    var read := store.Read(UsersDir, phone.s);
    if !(read.Loaded? && Truthy(read.data)) {
      return ErrorReply(400, CouldNotFindUser);
    }
    var err := store.Delete(UsersDir, phone.s);
    if err.None? {
      r := Status(200);
    } else {
      r := ErrorReply(500, CouldNotDelete);
    }
  }

  /** `handlers.users` */
  method Users(store: Data.FileStore, req: Request, hmac: string -> string) returns (r: Reply)
    modifies store
    ensures Handled(r, store.files) == UsersSpec(old(store.files), req, hmac)
  {
    if req.httpMethod == "post" {
      r := Post(store, req.payload, hmac);
    } else if req.httpMethod == "get" {
      r := GetUser(store, req.query);
    } else if req.httpMethod == "put" {
      r := Put(store, req.payload, hmac);
    } else if req.httpMethod == "delete" {
      r := Delete(store, req.query);
    } else {
      r := Status(405);
    }
  }
}

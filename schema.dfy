/** The request schemas for user records: the fixed permission names, the
    privilege levels, the `User` model with its defaults and validators, and the
    partial `UserUpdate` model. */
module Schema {
  import opened Wrappers

  const TextCompletionModels: string := "text_completion_models"
  const ChatCompletionModels: string := "chat_completion_models"
  const EmbeddingsPermission: string := "embeddings"
  const FineTunePermission: string := "fine_tune"

  /** `PERMISSION_KEYS_LIST`, in its declared order. */
  const PermissionKeysList: seq<string> :=
    [TextCompletionModels, ChatCompletionModels, EmbeddingsPermission, FineTunePermission]

  /** `PRIVILEGE_LIST`. */
  const PrivilegeList: seq<string> := ["owner", "admin", "user"]

  /** Status of a request whose body fails a schema validator. */
  const UnprocessableEntity: int := 422

  /** A permission map: capability name to flag. */
  type Permissions = map<string, bool>

  /** The permission map a `User` gets when none is supplied. */
  const DefaultPermissions: Permissions :=
    map[TextCompletionModels := true, ChatCompletionModels := true,
        EmbeddingsPermission := true, FineTunePermission := false]

  const DefaultRequestLimit: int := 1000
  const DefaultFineTuneLimit: int := 2
  const DefaultPrivilege: string := "user"

  /** Everything a user record carries except its password (and its hashed key). */
  datatype Profile = Profile(
    userId: string,
    name: string,
    requestLimit: int,
    fineTuneLimit: int,
    permissions: Permissions,
    privilege: string)

  /** A validated `User` body. */
  datatype User = User(profile: Profile, password: string)

  /** A validated `UserUpdate` body: `None` marks a field that was not supplied. */
  datatype UserUpdate = UserUpdate(
    userId: string,
    name: Option<string>,
    requestLimit: Option<int>,
    fineTuneLimit: Option<int>,
    permissions: Option<Permissions>,
    privilege: Option<string>)

  /** The `permissions` validator: the key set must be exactly the four
      permission names; the flags themselves are not looked at. */
  function PermissionsCheck(v: Permissions): (r: Result<Permissions>)
    ensures r.Ok? <==> forall k :: k in v <==> k in PermissionKeysList
    ensures r.Ok? ==> r.value == v
    ensures r.Err? ==> r.status == UnprocessableEntity
  {
    if v.Keys == set k | k in PermissionKeysList then Ok(v)
    else Err(UnprocessableEntity, "permissions")
  }

  /** The `privilege` validator: membership in `PRIVILEGE_LIST`. */
  function PrivilegeCheck(v: string): (r: Result<string>)
    ensures r.Ok? <==> v == "owner" || v == "admin" || v == "user"
    ensures r.Ok? ==> r.value == v
    ensures r.Err? ==> r.status == UnprocessableEntity
  {
    if v in PrivilegeList then Ok(v) else Err(UnprocessableEntity, "privilege")
  }

  /** Building a `User` from a request body. Absent optional fields take their
      defaults (validators are not run on defaults); supplied `permissions` and
      `privilege` must pass their validators. */
  function ValidateUser(
    userId: string, password: string, name: string,
    requestLimit: Option<int>, fineTuneLimit: Option<int>,
    permissions: Option<Permissions>, privilege: Option<string>): (r: Result<User>)
    ensures r.Ok? <==>
      (permissions.Some? ==> PermissionsCheck(permissions.value).Ok?) &&
      (privilege.Some? ==> PrivilegeCheck(privilege.value).Ok?)
    ensures r.Err? ==> r.status == UnprocessableEntity
    ensures r.Ok? ==>
      var p := r.value.profile;
      && r.value.password == password && p.userId == userId && p.name == name
      && p.requestLimit == (if requestLimit.Some? then requestLimit.value else 1000)
      && p.fineTuneLimit == (if fineTuneLimit.Some? then fineTuneLimit.value else 2)
      && p.privilege == (if privilege.Some? then privilege.value else "user")
      && p.permissions == (if permissions.Some? then permissions.value else DefaultPermissions)
  {
    var perms := if permissions.Some? then PermissionsCheck(permissions.value) else Ok(DefaultPermissions);
    var priv := if privilege.Some? then PrivilegeCheck(privilege.value) else Ok(DefaultPrivilege);
    if perms.Err? then Err(perms.status, perms.detail)
    else if priv.Err? then Err(priv.status, priv.detail)
    else
      var rl := if requestLimit.Some? then requestLimit.value else DefaultRequestLimit;
      var fl := if fineTuneLimit.Some? then fineTuneLimit.value else DefaultFineTuneLimit;
      Ok(User(Profile(userId, name, rl, fl, perms.value, priv.value), password))
  }

  /** Building a `UserUpdate`: only `user_id` is required; supplied permissions
      get the same exact-key check and a supplied privilege the membership check. */
  function ValidateUserUpdate(
    userId: string, name: Option<string>,
    requestLimit: Option<int>, fineTuneLimit: Option<int>,
    permissions: Option<Permissions>, privilege: Option<string>): (r: Result<UserUpdate>)
    ensures r.Ok? <==>
      (permissions.Some? ==> PermissionsCheck(permissions.value).Ok?) &&
      (privilege.Some? ==> PrivilegeCheck(privilege.value).Ok?)
    ensures r.Err? ==> r.status == UnprocessableEntity
    ensures r.Ok? ==> r.value == UserUpdate(userId, name, requestLimit, fineTuneLimit, permissions, privilege)
  {
    if permissions.Some? && PermissionsCheck(permissions.value).Err? then
      Err(UnprocessableEntity, "permissions")
    else if privilege.Some? && PrivilegeCheck(privilege.value).Err? then
      Err(UnprocessableEntity, "privilege")
    else
      Ok(UserUpdate(userId, name, requestLimit, fineTuneLimit, permissions, privilege))
  }

  /** The defaults themselves would pass the validators they bypass. */
  lemma DefaultsAreValid()
    ensures PermissionsCheck(DefaultPermissions).Ok?
    ensures PrivilegeCheck(DefaultPrivilege).Ok?
    ensures !DefaultPermissions[FineTunePermission]
    ensures DefaultPermissions[TextCompletionModels] && DefaultPermissions[ChatCompletionModels]
    ensures DefaultPermissions[EmbeddingsPermission]
  {
    assert DefaultPermissions.Keys == set k | k in PermissionKeysList;
  }

  /** Whether a permission map passes depends on its keys alone. */
  lemma PermissionsCheckIgnoresFlags(v: Permissions, w: Permissions)
    requires v.Keys == w.Keys
    ensures PermissionsCheck(v).Ok? == PermissionsCheck(w).Ok?
  {
  }

  /** A missing or an extra permission name is rejected. */
  lemma PermissionsCheckRejectsWrongKeys(v: Permissions, k: string)
    requires (k in PermissionKeysList && k !in v) || (k !in PermissionKeysList && k in v)
    ensures PermissionsCheck(v).Err?
  {
  }

  /** A map shaped like the `Permissions` model (flag `fine_tunes`, not
      `fine_tune`) fails the `User` permission check. */
  lemma PermissionsModelShapeRejected(flags: seq<bool>)
    requires |flags| == 4
    ensures PermissionsCheck(map["text_completion_models" := flags[0],
                                 "chat_completion_models" := flags[1],
                                 "embeddings" := flags[2],
                                 "fine_tunes" := flags[3]]).Err?
  {
    var v := map["text_completion_models" := flags[0], "chat_completion_models" := flags[1],
                 "embeddings" := flags[2], "fine_tunes" := flags[3]];
    assert "fine_tunes" in v;
    assert "fine_tunes" != FineTunePermission && "fine_tunes" != TextCompletionModels;
    assert "fine_tunes" !in PermissionKeysList;
  }
}

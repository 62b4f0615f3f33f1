/** The session state of src/store/redux/slices/userSlice.ts: who is logged in and with which token. */
module UserSlice {
  import opened Wrappers

  /** `UserInfo`: every field is optional, so the same record also serves as `Partial<UserInfo>`. */
  datatype UserInfo = UserInfo(
    id: Option<string>,
    username: Option<string>,
    email: Option<string>,
    avatar: Option<string>,
    roles: Option<seq<string>>,
    permissions: Option<seq<string>>)

  function Pick<T>(current: Option<T>, patch: Option<T>): Option<T>
  {
    if patch.Some? then patch else current
  }

  /** `{ ...info, ...patch }`: the fields present in `patch` win, all other fields are kept. */
  function MergeInfo(info: UserInfo, patch: UserInfo): (r: UserInfo)
    ensures patch.id.Some? ==> r.id == patch.id
    ensures patch.id.None? ==> r.id == info.id
    ensures patch.username.Some? ==> r.username == patch.username
    ensures patch.username.None? ==> r.username == info.username
    ensures patch.email.Some? ==> r.email == patch.email
    ensures patch.email.None? ==> r.email == info.email
    ensures patch.avatar.Some? ==> r.avatar == patch.avatar
    ensures patch.avatar.None? ==> r.avatar == info.avatar
    ensures patch.roles.Some? ==> r.roles == patch.roles
    ensures patch.roles.None? ==> r.roles == info.roles
    ensures patch.permissions.Some? ==> r.permissions == patch.permissions
    ensures patch.permissions.None? ==> r.permissions == info.permissions
  {
    UserInfo(
      Pick(info.id, patch.id),
      Pick(info.username, patch.username),
      Pick(info.email, patch.email),
      Pick(info.avatar, patch.avatar),
      Pick(info.roles, patch.roles),
      Pick(info.permissions, patch.permissions))
  }

  /** Merging the same patch again changes nothing more. */
  lemma MergeInfoIdempotent(info: UserInfo, patch: UserInfo)
    ensures MergeInfo(MergeInfo(info, patch), patch) == MergeInfo(info, patch)
  {
  }

  /** `UserState`; each reducer changes only the fields it names. */
  class UserState {
    var userInfo: Option<UserInfo>
    var token: Option<string>
    var isLoggedIn: bool

    /** `initialState`. */
    constructor ()
      ensures userInfo == None && token == None && !isLoggedIn
    {
      userInfo := None;
      token := None;
      isLoggedIn := false;
    }

    method SetUserInfo(payload: UserInfo)
      modifies this`userInfo
      ensures userInfo == Some(payload)
    {
      userInfo := Some(payload);
    }

    /** Sets the token only: a token alone does not mark the user as logged in. */
    method SetToken(payload: string)
      modifies this`token
      ensures token == Some(payload)
    {
      token := Some(payload);
    }

    method Login(info: UserInfo, t: string)
      modifies this
      ensures userInfo == Some(info) && token == Some(t) && isLoggedIn
    {
      userInfo := Some(info);
      token := Some(t);
      isLoggedIn := true;
    }

    method Logout()
      modifies this
      ensures userInfo == None && token == None && !isLoggedIn
    {
      userInfo := None;
      token := None;
      isLoggedIn := false;
    }

    /** Merges `patch` into the current user; without a current user nothing happens. */
    method UpdateUserInfo(patch: UserInfo)
      modifies this`userInfo
      ensures old(userInfo).Some? ==> userInfo == Some(MergeInfo(old(userInfo).value, patch))
      ensures old(userInfo).None? ==> userInfo == None
    {
      if userInfo.Some? {
        userInfo := Some(MergeInfo(userInfo.value, patch));
      }
    }
  }
}

/** The User schema and its document methods: roles, the subscription
    fields, the password hooks, the reset token and the soft-delete filter.
    bcrypt and SHA-256 are passed in as functions the model does not look into. */
module UserModel {
  import opened Common

  datatype Role = Regular | StoreOwner | Admin

  /** The role names the schema's `enum` accepts; `Regular` is stored as "user". */
  function RoleName(r: Role): string
  {
    match r
    case Regular => "user"
    case StoreOwner => "storeOwner"
    case Admin => "admin"
  }

  const DefaultRole: Role := Regular

  /** The subscription plans the schema's `enum` lists. The field itself is a
      string: saves that skip validation can store any plan name. */
  const FreePlan: string := "Free"
  const EarlyBirdPlan: string := "Early Bird"
  const PaidPlan: string := "Paid"

  predicate IsSubscriptionStatus(s: string)
  {
    s == FreePlan || s == EarlyBirdPlan || s == PaidPlan
  }

  /** What a request knows about the signed-in user (`req.user`). */
  datatype Principal = Principal(id: UserId, email: string, role: Role, storeId: Option<StoreId>)

  /** The three fields the billing handlers write. */
  datatype Subscription = Subscription(status: string, expiresAt: Option<Millis>, quotaUsed: bool)

  /** Every other mutable field of a user document. */
  datatype Profile = Profile(
    name: string, email: string, password: string, passwordConfirm: Option<string>,
    passwordChangedAt: Option<Millis>, passwordResetToken: Option<string>,
    passwordResetExpires: Option<Millis>, active: bool, role: Role,
    storeId: Option<StoreId>, isNew: bool)

  /** A reset token is valid for ten minutes. */
  const ResetTokenLifetime: int := 10 * MsPerMinute

  /** `parseInt(ms / 1000, 10)`: seconds, truncated toward zero. */
  function SecondsOf(ms: Millis): (s: int)
    ensures ms >= 0 ==> s == ms / MsPerSecond
    ensures ms >= 0 ==> s * MsPerSecond <= ms < (s + 1) * MsPerSecond
  {
    if ms >= 0 then ms / MsPerSecond else -((-ms) / MsPerSecond)
  }

  /** A loaded user document. */
  class UserDocument {
    const id: UserId
    var name: string
    var email: string
    var password: string
    var passwordConfirm: Option<string>
    var passwordChangedAt: Option<Millis>
    var passwordResetToken: Option<string>
    var passwordResetExpires: Option<Millis>
    var active: bool
    var role: Role
    var subscriptionStatus: string
    var subscriptionExpiresAt: Option<Millis>
    var earlyBirdQuotaUsed: bool
    var storeId: Option<StoreId>
    var isNew: bool

    function Sub(): Subscription
      reads this
    {
      Subscription(subscriptionStatus, subscriptionExpiresAt, earlyBirdQuotaUsed)
    }

    function Details(): Profile
      reads this
    {
      Profile(name, email, password, passwordConfirm, passwordChangedAt, passwordResetToken,
              passwordResetExpires, active, role, storeId, isNew)
    }

    /** A new user built from sign-up data; every other field takes its
        schema default and the name is trimmed by its setter. */
    constructor (id: UserId, name: string, email: string, password: string, passwordConfirm: string)
      ensures this.id == id && this.name == Trim(name) && this.email == email
      ensures this.password == password && this.passwordConfirm == Some(passwordConfirm)
      ensures active && role == DefaultRole && subscriptionStatus == FreePlan
      ensures !earlyBirdQuotaUsed && subscriptionExpiresAt.None? && storeId.None?
      ensures passwordChangedAt.None? && passwordResetToken.None? && passwordResetExpires.None?
      ensures isNew
      // the save validators accept it exactly for a 3-to-40-character trimmed
      // name, an 8-character password and a matching confirmation
      ensures PassesValidation() <==>
        3 <= |Trim(name)| <= 40 && |password| >= 8 && passwordConfirm == password
    {
      var trimmed := Trim(name);
      this.id := id;
      this.name := trimmed;
      this.email := email;
      this.password := password;
      this.passwordConfirm := Some(passwordConfirm);
      passwordChangedAt := None;
      passwordResetToken := None;
      passwordResetExpires := None;
      active := true;
      role := Regular;
      subscriptionStatus := FreePlan;
      subscriptionExpiresAt := None;
      earlyBirdQuotaUsed := false;
      storeId := None;
      isNew := true;
    }

    /** The validators that run when a new user is saved: a name of 3 to 40
        characters, a password of at least 8, a confirmation equal to the
        password, and a listed subscription plan. */
    predicate PassesValidation()
      reads this
    {
      3 <= |name| <= 40 && |password| >= 8
      && passwordConfirm == Some(password)
      && IsSubscriptionStatus(subscriptionStatus)
    }

    /** First pre-save hook: when the password was modified, store its hash
        and drop the confirmation. */
    method HashPasswordHook(passwordModified: bool, bcrypt: string -> string)
      modifies this`password, this`passwordConfirm
      ensures passwordModified ==> password == bcrypt(old(password)) && passwordConfirm.None?
      ensures !passwordModified ==> password == old(password) && passwordConfirm == old(passwordConfirm)
    {
      if passwordModified {
        password := bcrypt(password);
        passwordConfirm := None;
      }
    }

    /** Second pre-save hook: a password change on an existing user stamps
        `passwordChangedAt` one second in the past; a new user or an
        unchanged password leaves it alone. */
    method PasswordChangedAtHook(passwordModified: bool, now: Millis)
      modifies this`passwordChangedAt
      ensures passwordChangedAt ==
        if passwordModified && !isNew then Some(now - MsPerSecond) else old(passwordChangedAt)
    {
      if !passwordModified || isNew {
        return;
      }
      passwordChangedAt := Some(now - MsPerSecond);
    }

    /** True when the password was changed after a token issued at
        `jwtTimestamp` (seconds); false when it was never changed. */
    function ChangedPasswordAfter(jwtTimestamp: int): (r: bool)
      reads this
      ensures r <==> passwordChangedAt.Some? && jwtTimestamp < SecondsOf(passwordChangedAt.value)
    {
      match passwordChangedAt
      case Some(changedAt) => jwtTimestamp < SecondsOf(changedAt)
      case None => false
    }

    /** Issues a reset token: the caller gets `randomHex`, the document keeps
        only its SHA-256 digest, valid for ten minutes from `now`. */
    method CreatePasswordResetToken(randomHex: string, sha256: string -> string, now: Millis)
      returns (resetToken: string)
      modifies this`passwordResetToken, this`passwordResetExpires
      ensures resetToken == randomHex
      ensures passwordResetToken == Some(sha256(resetToken))
      ensures passwordResetExpires == Some(now + ResetTokenLifetime)
    {
      resetToken := randomHex;
      passwordResetToken := Some(sha256(resetToken));
      passwordResetExpires := Some(now + 10 * 60 * 1000);
    }
  }

  /** A token stamped (in whole seconds, as `jwt.sign` does) at or after the
      moment the password-change hook ran is not rejected by
      `ChangedPasswordAfter`, while one stamped more than a second before
      the change is. */
  lemma {:induction false} TokenAfterChangeAccepted(changedAt: Millis, savedAt: Millis, issuedAt: Millis)
    requires savedAt >= MsPerSecond && changedAt == savedAt - MsPerSecond
    ensures issuedAt >= changedAt ==> !(SecondsOf(issuedAt) < SecondsOf(changedAt))
    ensures issuedAt >= 0 && SecondsOf(issuedAt) + 1 < SecondsOf(savedAt) ==> SecondsOf(issuedAt) < SecondsOf(changedAt)
  {
    if issuedAt >= changedAt {
      assert SecondsOf(changedAt) * MsPerSecond <= changedAt;
      assert issuedAt < (SecondsOf(issuedAt) + 1) * MsPerSecond;
    }
    if issuedAt >= 0 && SecondsOf(issuedAt) + 1 < SecondsOf(savedAt) {
      assert SecondsOf(savedAt) * MsPerSecond <= savedAt < (SecondsOf(savedAt) + 1) * MsPerSecond;
      assert SecondsOf(changedAt) * MsPerSecond <= changedAt < (SecondsOf(changedAt) + 1) * MsPerSecond;
    }
  }

  /** `User.findById` under the `pre(/^find/)` hook: a user whose `active`
      flag is false is never returned. */
  function FindActive(users: map<UserId, UserDocument>, id: UserId): (r: Option<UserDocument>)
    reads users.Values
    ensures r.Some? <==> id in users && users[id].active
    ensures r.Some? ==> r.value == users[id]
  {
    if id in users && users[id].active then Some(users[id]) else None
  }
}

/**
 * Request-scoped annotations of the ops package: the acting user, the
 * operator in use and the authenticated web session, attached to and read
 * back from a request context.
 */
module OperationContext {
  import opened Wrappers

  /**
   * Keys a context may carry. The three keys of the ops package have their
   * own unexported type, so no key of another package can equal them; those
   * other keys are `ForeignKey`.
   */
  datatype Key = UserKey | WebSessionKey | OperatorKey | ForeignKey(name: string)

  /** Values stored in a context; the ops package stores the first three. */
  datatype Item =
    | UserName(name: string)
    | OperatorHandle(id: nat)
    | SessionHandle(id: nat)
    | ForeignItem(token: nat)

  /** A context: the empty root, or a parent extended with one key and value. */
  datatype Context = Background | WithValue(parent: Context, key: Key, item: Item)

  /** The keys a context carries anywhere along its chain. */
  function Keys(ctx: Context): set<Key>
  {
    match ctx
    case Background => {}
    case WithValue(parent, k, _) => Keys(parent) + {k}
  }

  /** Go's Context.Value: the value of the innermost binding of `k`, if any. */
  function Lookup(ctx: Context, k: Key): (r: Option<Item>)
    ensures r.Some? <==> k in Keys(ctx)
    ensures ctx.WithValue? && ctx.key == k ==> r == Some(ctx.item)
  {
    match ctx
    case Background => None
    case WithValue(parent, key, item) => if key == k then Some(item) else Lookup(parent, k)
  }

  /** The user name attached to the context, or "" when none is attached. */
  function UserFromContext(ctx: Context): string
  {
    match Lookup(ctx, UserKey)
    case Some(UserName(name)) => name
    case _ => ""
  }

  function NewUserContext(ctx: Context, user: string): Context
  {
    WithValue(ctx, UserKey, UserName(user))
  }

  /** The operator attached to the context, or nil. */
  function OperatorFromContext(ctx: Context): Option<nat>
  {
    match Lookup(ctx, OperatorKey)
    case Some(OperatorHandle(id)) => Some(id)
    case _ => None
  }

  function NewOperatorContext(ctx: Context, operator: nat): Context
  {
    WithValue(ctx, OperatorKey, OperatorHandle(operator))
  }

  /** The web session attached to the context, or nil. */
  function SessionFromContext(ctx: Context): Option<nat>
  {
    match Lookup(ctx, WebSessionKey)
    case Some(SessionHandle(id)) => Some(id)
    case _ => None
  }

  function NewSessionContext(ctx: Context, session: nat): Context
  {
    WithValue(ctx, WebSessionKey, SessionHandle(session))
  }

  /** Only the package's own constructors bind its keys, and each binds its key to the matching kind of value. */
  ghost predicate WellFormed(ctx: Context)
  {
    match ctx
    case Background => true
    case WithValue(parent, k, item) =>
      WellFormed(parent) &&
      (k == UserKey ==> item.UserName?) &&
      (k == OperatorKey ==> item.OperatorHandle?) &&
      (k == WebSessionKey ==> item.SessionHandle?)
  }

  /** A context into which nothing was attached yields the empty value for all three lookups. */
  lemma {:induction false} AbsentKeysGiveDefaults(ctx: Context)
    ensures UserKey !in Keys(ctx) ==> UserFromContext(ctx) == ""
    ensures OperatorKey !in Keys(ctx) ==> OperatorFromContext(ctx) == None
    ensures WebSessionKey !in Keys(ctx) ==> SessionFromContext(ctx) == None
  {
  }

  /** Each lookup returns what the matching constructor stored, whatever the context was before. */
  lemma {:induction false} StoredValuesAreFound(ctx: Context, user: string, operator: nat, session: nat)
    ensures UserFromContext(NewUserContext(ctx, user)) == user
    ensures OperatorFromContext(NewOperatorContext(ctx, operator)) == Some(operator)
    ensures SessionFromContext(NewSessionContext(ctx, session)) == Some(session)
  {
  }

  /** Binding any other key, including another package's, does not change a lookup. */
  lemma {:induction false} OtherKeysDoNotInterfere(ctx: Context, k: Key, item: Item)
    ensures k != UserKey ==> UserFromContext(WithValue(ctx, k, item)) == UserFromContext(ctx)
    ensures k != OperatorKey ==> OperatorFromContext(WithValue(ctx, k, item)) == OperatorFromContext(ctx)
    ensures k != WebSessionKey ==> SessionFromContext(WithValue(ctx, k, item)) == SessionFromContext(ctx)
  {
  }

  /**
   * In a context built by the package's constructors, an attached user is
   * read back as the innermost stored name, and an attached operator or
   * session is always found.
   */
  lemma {:induction false} UserLookupFindsInnermost(ctx: Context)
    requires WellFormed(ctx)
    ensures UserKey in Keys(ctx) ==> Lookup(ctx, UserKey) == Some(UserName(UserFromContext(ctx)))
    ensures OperatorKey in Keys(ctx) ==> OperatorFromContext(ctx).Some?
    ensures WebSessionKey in Keys(ctx) ==> SessionFromContext(ctx).Some?
  {
    match ctx
    case Background =>
    case WithValue(parent, k, item) =>
      UserLookupFindsInnermost(parent);
  }
}

/** The inline logic of `llnotifications.h`: a notification's status
    (responded to, cancelled, expired, active), its identity-only ordering
    and equality, the generic `filterBy` comparison, and a channel's parent
    name. The clock is a parameter; an LLDate is a count of seconds since
    the epoch. */
module Notifications {
  import opened Numeric

  /** ENotificationPriority. */
  datatype Priority = Unspecified | Low | Normal | High | Critical

  /** The fields of an LLNotification that its inline members read. */
  datatype Notification = Notification(
    id: Uuid,
    expiresAt: int,
    cancelled: bool,
    respondedTo: bool,
    ignored: bool,
    priority: Priority,
    temporaryResponder: bool)

  /** The UUID-only constructor used to look notifications up by id: not
      cancelled, not responded to, not ignored, priority unspecified, and
      the expiry left at its default, the epoch. */
  function ForLookup(id: Uuid): (n: Notification)
    ensures n.id == id
    ensures n.priority == Unspecified && !n.temporaryResponder && n.expiresAt == 0
    ensures !n.cancelled && !n.respondedTo && !n.ignored
  {
    Notification(id, 0, false, false, false, Unspecified, false)
  }

  /** isExpired: never when the expiry is the epoch, otherwise once now is
      later than the expiry. */
  predicate IsExpired(n: Notification, now: int) {
    if n.expiresAt == 0 then false else now > n.expiresAt
  }

  /** isActive: not responded to, not cancelled and not expired. */
  predicate IsActive(n: Notification, now: int) {
    !n.respondedTo && !n.cancelled && !IsExpired(n, now)
  }

  /** A notification stays expired as time passes, and one without expiry
      never expires. */
  lemma ExpiryMonotone(n: Notification, now: int, later: int)
    requires now <= later
    ensures IsExpired(n, now) ==> IsExpired(n, later)
    ensures n.expiresAt == 0 ==> !IsExpired(n, later)
    ensures n.expiresAt != 0 ==> (IsExpired(n, now) <==> now > n.expiresAt)
  {
  }

  /** An active notification was active at every earlier time, and once
      responded to or cancelled it is never active again. */
  lemma ActiveMeaning(n: Notification, now: int, earlier: int)
    requires earlier <= now
    ensures IsActive(n, now) ==> IsActive(n, earlier)
    ensures n.respondedTo || n.cancelled ==> !IsActive(n, now)
    ensures IsActive(n, now) <==> !n.respondedTo && !n.cancelled && (n.expiresAt == 0 || now <= n.expiresAt)
  {
  }

  /** A lookup notification is active whatever the time. */
  lemma LookupActive(id: Uuid, now: int)
    ensures IsActive(ForLookup(id), now) && !ForLookup(id).ignored
  {
  }

  // ---------------------------------------------------------------------------
  // Identity

  /** LLUUID's `<`. LLUUID is not part of this model: its byte-by-byte
      comparison is taken to agree with the order of the 128-bit value read
      with the first byte most significant. */
  predicate UuidLess(a: Uuid, b: Uuid) {
    a < b
  }

  /** `operator<`: by id. */
  predicate Less(a: Notification, b: Notification) {
    UuidLess(a.id, b.id)
  }

  /** `operator==`: by id. */
  predicate Same(a: Notification, b: Notification) {
    a.id == b.id
  }

  /** `operator!=`: the negation of `==`. */
  predicate NotSame(a: Notification, b: Notification) {
    !Same(a, b)
  }

  /** orderByUUID: `lhs->id() < rhs->id()`. */
  predicate OrderByUuid(a: Notification, b: Notification) {
    UuidLess(a.id, b.id)
  }

  /** The comparisons read the id and nothing else: notifications with the
      same ids compare alike whatever their status. */
  lemma IdentityOnlyById(a: Notification, b: Notification, a': Notification, b': Notification)
    requires a.id == a'.id && b.id == b'.id
    ensures Less(a, b) == Less(a', b') && Same(a, b) == Same(a', b') && NotSame(a, b) == NotSame(a', b')
    ensures OrderByUuid(a, b) == OrderByUuid(a', b')
  {
  }

  /** orderByUUID is a strict weak order whose equivalence is `==`, so a
      set ordered by it holds at most one notification per id, and it
      agrees with `operator<`. */
  lemma OrderByUuidIsStrict(a: Notification, b: Notification, c: Notification)
    ensures !OrderByUuid(a, a)
    ensures OrderByUuid(a, b) ==> !OrderByUuid(b, a)
    ensures OrderByUuid(a, b) && OrderByUuid(b, c) ==> OrderByUuid(a, c)
    ensures !OrderByUuid(a, b) && !OrderByUuid(b, a) <==> Same(a, b)
    ensures OrderByUuid(a, b) <==> Less(a, b)
    ensures NotSame(a, b) <==> !Same(a, b)
  {
  }

  /** A lookup notification made from a notification's id is `==` to it. */
  lemma LookupFinds(n: Notification)
    ensures Same(ForLookup(n.id), n)
    ensures !OrderByUuid(ForLookup(n.id), n) && !OrderByUuid(n, ForLookup(n.id))
  {
  }

  // ---------------------------------------------------------------------------
  // filterBy

  /** EComparison, with any other value of the enum's underlying integer. */
  datatype Comparison = Equal | LessThan | GreaterThan | LessEqual | GreaterEqual | OtherComparison(code: int)

  /** The comparison operators of a field type T. */
  datatype Operators<-T> = Operators(
    eq: (T, T) -> bool,
    lt: (T, T) -> bool,
    gt: (T, T) -> bool,
    le: (T, T) -> bool,
    ge: (T, T) -> bool)

  /** filterBy's `operator()`: the field of the notification compared with
      the filter value by the chosen operator; false for any other tag. */
  function FilterBy<T>(ops: Operators<T>, field: Notification -> T, value: T, comparison: Comparison, n: Notification): bool {
    match comparison
    case Equal => ops.eq(field(n), value)
    case LessThan => ops.lt(field(n), value)
    case GreaterThan => ops.gt(field(n), value)
    case LessEqual => ops.le(field(n), value)
    case GreaterEqual => ops.ge(field(n), value)
    case OtherComparison(_) => false
  }

  /** The operators of an integer field. */
  function IntOperators(): Operators<int> {
    Operators((x: int, y: int) => x == y, (x: int, y: int) => x < y, (x: int, y: int) => x > y,
              (x: int, y: int) => x <= y, (x: int, y: int) => x >= y)
  }

  /** On an integer field, each tag keeps the notifications whose field
      compares so with the value, the five tags relate as the integer order
      does, and an unknown tag keeps nothing. */
  lemma FilterByInt(field: Notification -> int, value: int, n: Notification)
    ensures FilterBy(IntOperators(), field, value, Equal, n) <==> field(n) == value
    ensures FilterBy(IntOperators(), field, value, LessThan, n) <==> field(n) < value
    ensures FilterBy(IntOperators(), field, value, GreaterThan, n) <==> field(n) > value
    ensures FilterBy(IntOperators(), field, value, LessEqual, n) <==>
      FilterBy(IntOperators(), field, value, LessThan, n) || FilterBy(IntOperators(), field, value, Equal, n)
    ensures FilterBy(IntOperators(), field, value, GreaterEqual, n) <==> !FilterBy(IntOperators(), field, value, LessThan, n)
    ensures forall code :: !FilterBy(IntOperators(), field, value, OtherComparison(code), n)
  {
  }

  /** The default comparison, EQUAL, on the id field finds exactly the
      notifications `==` to the lookup notification of that id. */
  lemma FilterByIdFindsSame(id: Uuid, n: Notification)
    ensures FilterBy(IntOperators(), (m: Notification) => m.id as int, id as int, Equal, n) <==> Same(n, ForLookup(id))
  {
  }

  // ---------------------------------------------------------------------------
  // Channels

  /** An LLNotificationChannel as far as its parent name goes. */
  datatype Channel = Channel(name: string, parents: seq<string>)

  /** getParentChannelName: the first parent, or the empty string when the
      channel has none. */
  function ParentChannelName(c: Channel): (r: string)
    ensures c.parents == [] ==> r == ""
    ensures c.parents != [] ==> r == c.parents[0] && r in c.parents
  {
    if c.parents == [] then "" else c.parents[0]
  }
}

/** The records of `agent/models.py` (A2AMessage, User, Checkin, Reframe),
    their string renderings and default orderings, and the store that holds
    them: four append-only tables, with `telex_id` unique among users. */
module Models {
  import opened Wrappers
  import opened Text

  /** A user's primary key. The source draws a random UUID; here keys are
      handed out in creation order, which keeps them distinct. */
  type UserId = nat

  // ---------------------------------------------------------------------------
  // Records
  // ---------------------------------------------------------------------------

  /** ROLE_CHOICES of A2AMessage. */
  datatype Role = UserRole | AssistantRole | SystemRole {
    /** The stored value of the role. */
    function Name(): string
    {
      match this
      case UserRole => "user"
      case AssistantRole => "assistant"
      case SystemRole => "system"
    }
  }

  /** Reads a stored role value back; anything outside the choices is refused. */
  function ParseRole(name: string): (r: Option<Role>)
    ensures r.Some? ==> r.value.Name() == name
    ensures name in ["user", "assistant", "system"] <==> r.Some?
  {
    if name == "user" then Some(UserRole)
    else if name == "assistant" then Some(AssistantRole)
    else if name == "system" then Some(SystemRole)
    else None
  }

  /** Every role's stored value is one of the three choices and reads back
      as the same role. */
  lemma RoleRoundTrip(role: Role)
    ensures role.Name() in ["user", "assistant", "system"]
    ensures ParseRole(role.Name()) == Some(role)
  {
  }

  /** A user; `name` is nullable, `telex_id` is the external identifier. */
  datatype User = User(id: UserId, telexId: string, name: Option<string>)

  /** A conversation turn; its owner may be null. */
  datatype Message = Message(user: Option<UserId>, role: Role, content: string,
                             createdAt: int, sessionId: Option<string>)

  /** A classified user utterance; its owner is required. */
  datatype Checkin = Checkin(user: UserId, text: string, mood: Option<string>,
                             sentiment: Option<string>, createdAt: int)

  /** A stored reframing; its owner is required. */
  datatype Reframe = Reframe(user: UserId, originalText: string, reframedText: string,
                             createdAt: int)

  // ---------------------------------------------------------------------------
  // String renderings (__str__)
  // ---------------------------------------------------------------------------

  const PreviewLength := 40

  /** A2AMessage.__str__: the role in brackets, the first (at most) forty
      characters of the content, and an ellipsis that is always appended. */
  function MessageStr(m: Message): (r: string)
    ensures var head := "[" + m.role.Name() + "] ";
            var n := Min(PreviewLength, |m.content|);
            |r| == |head| + n + 3
            && r[..|head|] == head
            && r[|head|..|head| + n] == m.content[..n]
            && EndsWith(r, "...")
  {
    "[" + m.role.Name() + "] " + m.content[..Min(PreviewLength, |m.content|)] + "..."
  }

  /** Content of at most forty characters appears whole in the rendering. */
  lemma ShortMessageStr(m: Message)
    requires |m.content| <= PreviewLength
    ensures MessageStr(m) == "[" + m.role.Name() + "] " + m.content + "..."
  {
    assert m.content[..|m.content|] == m.content;
  }

  /** User.__str__: `self.name or self.telex_id`, so a null or empty name
      falls back to the external identifier. */
  function UserStr(u: User): (r: string)
    ensures u.name.Some? && u.name.value != "" ==> r == u.name.value
    ensures u.name.None? || u.name.value == "" ==> r == u.telexId
    ensures r == "" ==> u.telexId == ""
  {
    if u.name.Some? && u.name.value != "" then u.name.value else u.telexId
  }

  /** Checkin.__str__, with the owner looked up and the day already rendered
      as text (date formatting is not part of this model). */
  function CheckinStr(c: Checkin, owner: User, day: string): (r: string)
    requires owner.id == c.user
    ensures var n := |owner.telexId|;
            |r| == 12 + n + 4 + |day|
            && r[..12] == "Checkin for "
            && r[12..12 + n] == owner.telexId
            && r[12 + n..] == " on " + day
  {
    "Checkin for " + owner.telexId + " on " + day
  }

  /** Reframe.__str__, with the owner looked up and the day rendered as text. */
  function ReframeStr(f: Reframe, owner: User, day: string): (r: string)
    requires owner.id == f.user
    ensures var n := |owner.telexId|;
            |r| == 12 + n + 2 + |day| + 1
            && r[..12] == "Reframe for "
            && r[12..12 + n] == owner.telexId
            && r[12 + n..] == " (" + day + ")"
  {
    "Reframe for " + owner.telexId + " (" + day + ")"
  }

  // ---------------------------------------------------------------------------
  // Orderings
  // ---------------------------------------------------------------------------

  ghost predicate Ascending(ts: seq<int>)
  {
    forall i, j :: 0 <= i < j < |ts| ==> ts[i] <= ts[j]
  }

  ghost predicate Descending(ts: seq<int>)
  {
    forall i, j :: 0 <= i < j < |ts| ==> ts[i] >= ts[j]
  }

  ghost predicate NotAfter(ts: seq<int>, clock: int)
  {
    forall i :: 0 <= i < |ts| ==> ts[i] <= clock
  }

  function MessageTimes(ms: seq<Message>): seq<int>
  {
    seq(|ms|, i requires 0 <= i < |ms| => ms[i].createdAt)
  }

  function CheckinTimes(cs: seq<Checkin>): seq<int>
  {
    seq(|cs|, i requires 0 <= i < |cs| => cs[i].createdAt)
  }

  function ReframeTimes(fs: seq<Reframe>): seq<int>
  {
    seq(|fs|, i requires 0 <= i < |fs| => fs[i].createdAt)
  }

  /** Appending a record no older than the clock keeps a log ascending and
      bounded by the (advanced) clock. */
  lemma AppendKeepsAscending(ts: seq<int>, clock: int, now: int)
    requires Ascending(ts) && NotAfter(ts, clock) && clock <= now
    ensures Ascending(ts + [now]) && NotAfter(ts + [now], now)
  {
  }

  /** The default ordering of Checkin and Reframe (newest first), taken over a
      log kept in creation order, is the reversed log. Ties keep reverse
      insertion order. The ensures only says what reversal is; that this is
      newest first is NewestFirstIsDescending. */
  function NewestFirst<T>(log: seq<T>): (r: seq<T>)
    ensures |r| == |log|
    ensures forall i :: 0 <= i < |log| ==> r[i] == log[|log| - 1 - i]
  {
    Reverse(log)
  }

  /** Reversing a log that is ascending in time gives newest first. */
  lemma NewestFirstIsDescending(cs: seq<Checkin>, fs: seq<Reframe>)
    requires Ascending(CheckinTimes(cs)) && Ascending(ReframeTimes(fs))
    ensures Descending(CheckinTimes(NewestFirst(cs)))
    ensures Descending(ReframeTimes(NewestFirst(fs)))
  {
    var rc := NewestFirst(cs);
    forall i, j | 0 <= i < j < |rc|
      ensures CheckinTimes(rc)[i] >= CheckinTimes(rc)[j]
    {
      assert CheckinTimes(cs)[|cs| - 1 - j] <= CheckinTimes(cs)[|cs| - 1 - i];
    }
    var rf := NewestFirst(fs);
    forall i, j | 0 <= i < j < |rf|
      ensures ReframeTimes(rf)[i] >= ReframeTimes(rf)[j]
    {
      assert ReframeTimes(fs)[|fs| - 1 - j] <= ReframeTimes(fs)[|fs| - 1 - i];
    }
  }

  // ---------------------------------------------------------------------------
  // Users: uniqueness of telex_id and get-or-create
  // ---------------------------------------------------------------------------

  /** The storage constraint `telex_id unique=True`. */
  ghost predicate UniqueTelexIds(users: seq<User>)
  {
    forall i, j :: 0 <= i < j < |users| ==> users[i].telexId != users[j].telexId
  }

  ghost predicate KeysInOrder(users: seq<User>)
  {
    forall i :: 0 <= i < |users| ==> users[i].id == i
  }

  /** `User.objects.get(telex_id=...)`, with `None` for DoesNotExist. */
  function FindUser(users: seq<User>, telexId: string): (r: Option<User>)
    ensures r.Some? ==> r.value in users && r.value.telexId == telexId
    ensures r.None? ==> forall u :: u in users ==> u.telexId != telexId
  {
    if users == [] then None
    else if users[0].telexId == telexId then Some(users[0])
    else FindUser(users[1..], telexId)
  }

  /** With unique identifiers there is at most one user per identifier. */
  lemma AtMostOneUserPerTelexId(users: seq<User>, a: User, b: User)
    requires UniqueTelexIds(users)
    requires a in users && b in users && a.telexId == b.telexId
    ensures a == b
  {
    var i :| 0 <= i < |users| && users[i] == a;
    var j :| 0 <= j < |users| && users[j] == b;
  }

  /** `User.objects.get_or_create(telex_id=...)`: the user table afterwards
      and the user fetched or created (with a fresh key and no name). The
      returned user carries the identifier and is in the table; the table is
      unchanged when the identifier was known and grows by that one user
      otherwise. */
  function GetOrCreate(users: seq<User>, telexId: string): (r: (seq<User>, User))
    ensures r.1 in r.0 && r.1.telexId == telexId
    ensures FindUser(users, telexId).Some? ==> r.0 == users && r.1 == FindUser(users, telexId).value
    ensures FindUser(users, telexId).None? ==> r.0 == users + [r.1] && r.1.id == |users| && r.1.name.None?
  {
    match FindUser(users, telexId)
    case Some(u) => (users, u)
    case None => (users + [User(|users|, telexId, None)], User(|users|, telexId, None))
  }

  /** get-or-create keeps the identifiers unique and the keys in order, and
      the returned user's key indexes the table. */
  lemma GetOrCreateSpec(users: seq<User>, telexId: string)
    requires UniqueTelexIds(users) && KeysInOrder(users)
    ensures var (after, u) := GetOrCreate(users, telexId);
            UniqueTelexIds(after) && KeysInOrder(after) && u.id < |after| && after[u.id] == u
  {
    var (after, u) := GetOrCreate(users, telexId);
    if FindUser(users, telexId).Some? {
      var i :| 0 <= i < |users| && users[i] == u;
    }
  }

  /** Idempotence: a second get-or-create with the same identifier finds the
      user the first one returned and creates nothing. */
  lemma GetOrCreateIdempotent(users: seq<User>, telexId: string)
    requires UniqueTelexIds(users) && KeysInOrder(users)
    ensures var (after, u) := GetOrCreate(users, telexId);
            GetOrCreate(after, telexId) == (after, u)
  {
    var (after, u) := GetOrCreate(users, telexId);
    GetOrCreateSpec(users, telexId);
    var v := FindUser(after, telexId).value;
    AtMostOneUserPerTelexId(after, u, v);
  }

  // ---------------------------------------------------------------------------
  // The store
  // ---------------------------------------------------------------------------

  /** The four tables. Records are only ever appended, each stamped with the
      request's time; `clock` is the latest such time. */
  class Database {
    var users: seq<User>
    var messages: seq<Message>
    var checkins: seq<Checkin>
    var reframes: seq<Reframe>
    var clock: int

    /** Unique identifiers, existing owners (a message's may be null), and
        every log in creation order, none later than the clock. */
    ghost predicate Valid()
      reads this
    {
      && UniqueTelexIds(users) && KeysInOrder(users)
      && (forall m :: m in messages && m.user.Some? ==> m.user.value < |users|)
      && (forall c :: c in checkins ==> c.user < |users|)
      && (forall f :: f in reframes ==> f.user < |users|)
      && Ascending(MessageTimes(messages)) && NotAfter(MessageTimes(messages), clock)
      && Ascending(CheckinTimes(checkins)) && NotAfter(CheckinTimes(checkins), clock)
      && Ascending(ReframeTimes(reframes)) && NotAfter(ReframeTimes(reframes), clock)
    }

    constructor (start: int)
      ensures Valid()
      ensures users == [] && messages == [] && checkins == [] && reframes == []
      ensures clock == start
    {
      users, messages, checkins, reframes := [], [], [], [];
      clock := start;
    }

    /** `User.objects.get_or_create`. */
    method GetOrCreateUser(telexId: string) returns (u: User)
      requires Valid()
      modifies this
      ensures Valid()
      ensures (users, u) == GetOrCreate(old(users), telexId)
      ensures u.telexId == telexId && u.id < |users|
      ensures messages == old(messages) && checkins == old(checkins)
      ensures reframes == old(reframes) && clock == old(clock)
    {
      GetOrCreateSpec(users, telexId);
      var after;
      after, u := GetOrCreate(users, telexId).0, GetOrCreate(users, telexId).1;
      users := after;
    }

    /** `A2AMessage.objects.create(...)` at time `now`; no session id is set. */
    method AddMessage(owner: Option<UserId>, role: Role, content: string, now: int)
      requires Valid() && clock <= now
      requires owner.Some? ==> owner.value < |users|
      modifies this
      ensures Valid()
      ensures messages == old(messages) + [Message(owner, role, content, now, None)]
      ensures users == old(users) && checkins == old(checkins) && reframes == old(reframes)
      ensures clock == now
    {
      var m := Message(owner, role, content, now, None);
      AppendKeepsAscending(MessageTimes(messages), clock, now);
      assert MessageTimes(messages + [m]) == MessageTimes(messages) + [now];
      AppendKeepsAscending(CheckinTimes(checkins), clock, now);
      AppendKeepsAscending(ReframeTimes(reframes), clock, now);
      messages := messages + [m];
      clock := now;
    }

    /** `Checkin.objects.create(user=..., text=..., sentiment=...)`; no mood. */
    method AddCheckin(owner: UserId, text: string, sentiment: string, now: int)
      requires Valid() && clock <= now && owner < |users|
      modifies this
      ensures Valid()
      ensures checkins == old(checkins) + [Checkin(owner, text, None, Some(sentiment), now)]
      ensures users == old(users) && messages == old(messages) && reframes == old(reframes)
      ensures clock == now
    {
      var c := Checkin(owner, text, None, Some(sentiment), now);
      AppendKeepsAscending(MessageTimes(messages), clock, now);
      AppendKeepsAscending(CheckinTimes(checkins), clock, now);
      assert CheckinTimes(checkins + [c]) == CheckinTimes(checkins) + [now];
      AppendKeepsAscending(ReframeTimes(reframes), clock, now);
      checkins := checkins + [c];
      clock := now;
    }

    /** `Reframe.objects.create(user=..., original_text=..., reframed_text=...)`. */
    method AddReframe(owner: UserId, original: string, reframed: string, now: int)
      requires Valid() && clock <= now && owner < |users|
      modifies this
      ensures Valid()
      ensures reframes == old(reframes) + [Reframe(owner, original, reframed, now)]
      ensures users == old(users) && messages == old(messages) && checkins == old(checkins)
      ensures clock == now
    {
      var f := Reframe(owner, original, reframed, now);
      AppendKeepsAscending(MessageTimes(messages), clock, now);
      AppendKeepsAscending(CheckinTimes(checkins), clock, now);
      AppendKeepsAscending(ReframeTimes(reframes), clock, now);
      assert ReframeTimes(reframes + [f]) == ReframeTimes(reframes) + [now];
      reframes := reframes + [f];
      clock := now;
    }
  }
}

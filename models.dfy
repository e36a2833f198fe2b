/** The collections of the back office (users, members, payments, content,
    gallery, initiatives, goals, email logs) and the operations of their
    models. Ids (uuid v4) and the current time are passed in; the password
    hash is computed by the caller. */
module Models {
  import opened Records
  import opened Sorting
  import opened Store

  /** The record `{ id, ...data, <stamp>: now }`: the generated id is written
      before the caller's fields, so a caller-supplied `id` replaces it; the
      timestamp is written after them, so the caller cannot set it. */
  function Stamped(data: Record, id: string, stamp: string, now: int): (r: Record)
    ensures r.Keys == data.Keys + {"id", stamp}
    ensures r[stamp] == Date(now)
    ensures forall f :: f in data && f != stamp ==> r[f] == data[f]
    ensures "id" !in data && stamp != "id" ==> r["id"] == Str(id)
  {
    (map["id" := Str(id)] + data)[stamp := Date(now)]
  }

  /** The record MemberModel.create inserts: the caller's fields, but status
      and payment status always pending and a fresh creation time. */
  function NewMember(data: Record, id: string, now: int): (r: Record)
    ensures r.Keys == data.Keys + {"id", "status", "paymentStatus", "createdAt"}
    ensures r["status"] == Str("pending") && r["paymentStatus"] == Str("pending")
    ensures r["createdAt"] == Date(now)
    ensures forall f :: f in data && f !in {"status", "paymentStatus", "createdAt"} ==> r[f] == data[f]
    ensures "id" !in data ==> r["id"] == Str(id)
  {
    Stamped(data, id, "createdAt", now)["status" := Str("pending")]["paymentStatus" := Str("pending")]
  }

  /** The record UserModel.create inserts; the role is `staff_admin` unless
      the caller gives one. */
  function NewUser(email: Value, passwordHash: string, role: Option<Value>, id: string, now: int): (r: Record)
    ensures r.Keys == {"id", "email", "password", "role", "createdAt"}
    ensures r["id"] == Str(id) && r["email"] == email && r["password"] == Str(passwordHash)
    ensures r["role"] == (if role.None? then Str("staff_admin") else role.value)
    ensures r["createdAt"] == Date(now)
  {
    var givenRole := match role case None => Str("staff_admin") case Some(v) => v;
    map["id" := Str(id), "email" := email, "password" := Str(passwordHash), "role" := givenRole, "createdAt" := Date(now)]
  }

  /** The record ContentModel.upsert writes; the type is `text` unless the
      caller gives one. */
  function NewContent(key: string, value: Value, kind: Option<Value>, id: string, now: int): (r: Record)
    ensures r.Keys == {"id", "key", "value", "type", "updatedAt"}
    ensures r["id"] == Str(id) && r["key"] == Str(key) && r["value"] == value
    ensures r["type"] == (if kind.None? then Str("text") else kind.value)
    ensures r["updatedAt"] == Date(now)
  {
    var givenKind := match kind case None => Str("text") case Some(v) => v;
    map["id" := Str(id), "key" := Str(key), "value" := value, "type" := givenKind, "updatedAt" := Date(now)]
  }

  /** The `$set` of every model's update: the caller's fields and the update time. */
  function UpdatePatch(data: Record, now: int): (p: Record)
    ensures p.Keys == data.Keys + {"updatedAt"}
    ensures p["updatedAt"] == Date(now)
    ensures forall f :: f in data && f != "updatedAt" ==> p[f] == data[f]
  {
    data["updatedAt" := Date(now)]
  }

  /** `image` is left out of the gallery listing for `category`: only a
      non-empty category filters. */
  predicate OutsideCategory(category: Option<string>, image: Record) {
    category.Some? && category.value != "" && Field(image, "category") != Str(category.value)
  }

  /** The contents of every collection at one moment. */
  datatype Tables = Tables(
    users: seq<Record>,
    members: seq<Record>,
    payments: seq<Record>,
    content: seq<Record>,
    gallery: seq<Record>,
    initiatives: seq<Record>,
    goals: seq<Record>,
    emailLogs: seq<Record>)

  /** The document store: one sequence of documents per collection, in
      insertion order. Each method changes one collection and says so. */
  class Database {
    var users: seq<Record>
    var members: seq<Record>
    var payments: seq<Record>
    var content: seq<Record>
    var gallery: seq<Record>
    var initiatives: seq<Record>
    var goals: seq<Record>
    var emailLogs: seq<Record>

    ghost function State(): Tables
      reads this
    {
      Tables(users, members, payments, content, gallery, initiatives, goals, emailLogs)
    }

    constructor ()
      ensures State() == Tables([], [], [], [], [], [], [], [])
    {
      users, members, payments, content := [], [], [], [];
      gallery, initiatives, goals, emailLogs := [], [], [], [];
    }

    // ---------------- UserModel

    method UserCreate(email: Value, passwordHash: string, role: Option<Value>, id: string, now: int) returns (user: Record)
      modifies this
      ensures user == NewUser(email, passwordHash, role, id, now)
      ensures State() == old(State()).(users := old(users) + [user])
    {
      user := NewUser(email, passwordHash, role, id, now);
      users := users + [user];
    }

    function UserFindByEmail(email: Value): (r: Option<Record>)
      reads this
      ensures r.Some? ==> r.value in users && Field(r.value, "email") == email
      ensures r.None? <==> forall j :: 0 <= j < |users| ==> Field(users[j], "email") != email
      ensures r == FindOne(users, "email", email)
    {
      FindOne(users, "email", email)
    }

    function UserFindById(id: string): (r: Option<Record>)
      reads this
      ensures r.Some? ==> r.value in users && Field(r.value, "id") == Str(id)
      ensures r.None? <==> forall j :: 0 <= j < |users| ==> Field(users[j], "id") != Str(id)
      ensures r == FindOne(users, "id", Str(id))
    {
      FindOne(users, "id", Str(id))
    }

    // ---------------- MemberModel

    method MemberCreate(data: Record, id: string, now: int) returns (member: Record)
      modifies this
      ensures member == NewMember(data, id, now)
      ensures State() == old(State()).(members := old(members) + [member])
    {
      member := NewMember(data, id, now);
      members := members + [member];
    }

    /** Every member, newest first. */
    function MemberFindAll(): (r: seq<Record>)
      reads this
      ensures SortedBy(r, "createdAt", false)
      ensures multiset(r) == multiset(members)
    {
      SortBy(members, "createdAt", false)
    }

    function MemberFindById(id: string): (r: Option<Record>)
      reads this
      ensures r.Some? ==> r.value in members && Field(r.value, "id") == Str(id)
      ensures r.None? <==> forall j :: 0 <= j < |members| ==> Field(members[j], "id") != Str(id)
      ensures r == FindOne(members, "id", Str(id))
    {
      FindOne(members, "id", Str(id))
    }

    /** Patches the first member with this id and returns what findById then finds. */
    method MemberUpdate(id: string, data: Record, now: int) returns (r: Option<Record>)
      modifies this
      ensures State() == old(State()).(members := UpdateOne(old(members), "id", Str(id), UpdatePatch(data, now)))
      ensures r == FindOne(members, "id", Str(id))
    {
      members := UpdateOne(members, "id", Str(id), UpdatePatch(data, now));
      r := MemberFindById(id);
    }

    method MemberDelete(id: string)
      modifies this
      ensures State() == old(State()).(members := DeleteOne(old(members), "id", Str(id)))
    {
      members := DeleteOne(members, "id", Str(id));
    }

    // ---------------- PaymentModel

    method PaymentCreate(data: Record, id: string, now: int) returns (payment: Record)
      modifies this
      ensures payment == Stamped(data, id, "createdAt", now)
      ensures State() == old(State()).(payments := old(payments) + [payment])
    {
      payment := Stamped(data, id, "createdAt", now);
      payments := payments + [payment];
    }

    /** Every payment, newest first. */
    function PaymentFindAll(): (r: seq<Record>)
      reads this
      ensures SortedBy(r, "createdAt", false)
      ensures multiset(r) == multiset(payments)
    {
      SortBy(payments, "createdAt", false)
    }

    function PaymentFindById(id: string): (r: Option<Record>)
      reads this
      ensures r.Some? ==> r.value in payments && Field(r.value, "id") == Str(id)
      ensures r.None? <==> forall j :: 0 <= j < |payments| ==> Field(payments[j], "id") != Str(id)
      ensures r == FindOne(payments, "id", Str(id))
    {
      FindOne(payments, "id", Str(id))
    }

    method PaymentUpdate(id: string, data: Record, now: int) returns (r: Option<Record>)
      modifies this
      ensures State() == old(State()).(payments := UpdateOne(old(payments), "id", Str(id), UpdatePatch(data, now)))
      ensures r == FindOne(payments, "id", Str(id))
    {
      payments := UpdateOne(payments, "id", Str(id), UpdatePatch(data, now));
      r := PaymentFindById(id);
    }

    // ---------------- ContentModel

    /** Writes the content record for `key`, over the one already there if
        any, and returns the record written. */
    method ContentUpsert(key: string, value: Value, kind: Option<Value>, id: string, now: int) returns (written: Record)
      modifies this
      ensures written == NewContent(key, value, kind, id, now)
      ensures State() == old(State()).(content := UpsertOne(old(content), "key", Str(key), written))
      ensures KeysUnique(old(content), "key") ==> KeysUnique(content, "key")
    {
      written := NewContent(key, value, kind, id, now);
      if KeysUnique(content, "key") {
        UpsertKeepsKeysUnique(content, "key", Str(key), written);
      }
      content := UpsertOne(content, "key", Str(key), written);
    }

    function ContentFindByKey(key: string): (r: Option<Record>)
      reads this
      ensures r.Some? ==> r.value in content && Field(r.value, "key") == Str(key)
      ensures r.None? <==> forall j :: 0 <= j < |content| ==> Field(content[j], "key") != Str(key)
      ensures r == FindOne(content, "key", Str(key))
    {
      FindOne(content, "key", Str(key))
    }

    /** Every content record, in the store's own order. */
    function ContentFindAll(): (r: seq<Record>)
      reads this
      ensures r == content
    {
      content
    }

    // ---------------- GalleryModel

    method GalleryCreate(data: Record, id: string, now: int) returns (image: Record)
      modifies this
      ensures image == Stamped(data, id, "createdAt", now)
      ensures State() == old(State()).(gallery := old(gallery) + [image])
    {
      image := Stamped(data, id, "createdAt", now);
      gallery := gallery + [image];
    }

    /** The images of one category, or all images when no category (or an
        empty one) is given, newest first. */
    function GalleryFindAll(category: Option<string> := None): (r: seq<Record>)
      reads this
      ensures SortedBy(r, "createdAt", false)
      ensures forall y :: multiset(r)[y] == if OutsideCategory(category, y) then 0 else multiset(gallery)[y]
    {
      match category
      case Some(c) =>
        if c != "" then SortBy(Where(gallery, "category", Str(c)), "createdAt", false)
        else SortBy(gallery, "createdAt", false)
      case None => SortBy(gallery, "createdAt", false)
    }

    method GalleryDelete(id: string)
      modifies this
      ensures State() == old(State()).(gallery := DeleteOne(old(gallery), "id", Str(id)))
    {
      gallery := DeleteOne(gallery, "id", Str(id));
    }

    // ---------------- InitiativeModel

    method InitiativeCreate(data: Record, id: string, now: int) returns (initiative: Record)
      modifies this
      ensures initiative == Stamped(data, id, "createdAt", now)
      ensures State() == old(State()).(initiatives := old(initiatives) + [initiative])
    {
      initiative := Stamped(data, id, "createdAt", now);
      initiatives := initiatives + [initiative];
    }

    /** Every initiative, latest `date` first. */
    function InitiativeFindAll(): (r: seq<Record>)
      reads this
      ensures SortedBy(r, "date", false)
      ensures multiset(r) == multiset(initiatives)
    {
      SortBy(initiatives, "date", false)
    }

    function InitiativeFindById(id: string): (r: Option<Record>)
      reads this
      ensures r.Some? ==> r.value in initiatives && Field(r.value, "id") == Str(id)
      ensures r.None? <==> forall j :: 0 <= j < |initiatives| ==> Field(initiatives[j], "id") != Str(id)
      ensures r == FindOne(initiatives, "id", Str(id))
    {
      FindOne(initiatives, "id", Str(id))
    }

    method InitiativeUpdate(id: string, data: Record, now: int) returns (r: Option<Record>)
      modifies this
      ensures State() == old(State()).(initiatives := UpdateOne(old(initiatives), "id", Str(id), UpdatePatch(data, now)))
      ensures r == FindOne(initiatives, "id", Str(id))
    {
      initiatives := UpdateOne(initiatives, "id", Str(id), UpdatePatch(data, now));
      r := InitiativeFindById(id);
    }

    method InitiativeDelete(id: string)
      modifies this
      ensures State() == old(State()).(initiatives := DeleteOne(old(initiatives), "id", Str(id)))
    {
      initiatives := DeleteOne(initiatives, "id", Str(id));
    }

    // ---------------- GoalModel

    method GoalCreate(data: Record, id: string, now: int) returns (goal: Record)
      modifies this
      ensures goal == Stamped(data, id, "createdAt", now)
      ensures State() == old(State()).(goals := old(goals) + [goal])
    {
      goal := Stamped(data, id, "createdAt", now);
      goals := goals + [goal];
    }

    /** Every goal, in ascending `order`. */
    function GoalFindAll(): (r: seq<Record>)
      reads this
      ensures SortedBy(r, "order", true)
      ensures multiset(r) == multiset(goals)
    {
      SortBy(goals, "order", true)
    }

    method GoalUpdate(id: string, data: Record, now: int)
      modifies this
      ensures State() == old(State()).(goals := UpdateOne(old(goals), "id", Str(id), UpdatePatch(data, now)))
    {
      goals := UpdateOne(goals, "id", Str(id), UpdatePatch(data, now));
    }

    method GoalDelete(id: string)
      modifies this
      ensures State() == old(State()).(goals := DeleteOne(old(goals), "id", Str(id)))
    {
      goals := DeleteOne(goals, "id", Str(id));
    }

    // ---------------- EmailLogModel

    method EmailLogCreate(data: Record, id: string, now: int) returns (log: Record)
      modifies this
      ensures log == Stamped(data, id, "sentAt", now)
      ensures State() == old(State()).(emailLogs := old(emailLogs) + [log])
    {
      log := Stamped(data, id, "sentAt", now);
      emailLogs := emailLogs + [log];
    }

    /** The `limit` most recent logs (100 unless given; 0 means all), newest
        first; every log left out was sent no later than every log listed. */
    function EmailLogFindAll(limit: nat := 100): (r: seq<Record>)
      reads this
      ensures SortedBy(r, "sentAt", false)
      ensures limit > 0 ==> |r| <= limit
      ensures |r| == if limit == 0 || |emailLogs| < limit then |emailLogs| else limit
      ensures multiset(r) <= multiset(emailLogs)
      ensures forall x, y :: x in r && multiset(r)[y] < multiset(emailLogs)[y] ==> InOrder(x, y, "sentAt", false)
    {
      var sorted := SortBy(emailLogs, "sentAt", false);
      LimitKeepsFirst(sorted, limit, "sentAt", false);
      Limit(sorted, limit)
    }
  }

  // ---------------- Properties of the model operations

  /** Appending a record whose `field` is `v` to a collection where nothing
      has that value makes finding by `v` return the new record. */
  lemma AppendedFound(docs: seq<Record>, rec: Record, field: string, v: Value)
    requires Field(rec, field) == v
    requires forall j :: 0 <= j < |docs| ==> Field(docs[j], field) != v
    ensures FindOne(docs + [rec], field, v) == Some(rec)
  {
    FirstMatchIs(docs + [rec], field, v, |docs|);
  }

  /** Appending any record leaves finding by a value that already matches
      unchanged: it still yields the older document. */
  lemma AppendedShadowed(docs: seq<Record>, rec: Record, field: string, v: Value, k: int)
    requires 0 <= k < |docs| && Field(docs[k], field) == v
    ensures FindOne(docs + [rec], field, v) == FindOne(docs, field, v)
    ensures FirstMatch(docs, field, v) <= k
  {
    var i := FirstMatch(docs, field, v);
    FirstMatchIs(docs + [rec], field, v, i);
  }

  /** A member, payment, gallery image, initiative or goal created with a
      fresh generated id, and no id of the caller's, is what finding by
      that id returns. */
  lemma CreatedFoundById(docs: seq<Record>, data: Record, id: string, now: int)
    requires "id" !in data
    requires forall j :: 0 <= j < |docs| ==> Field(docs[j], "id") != Str(id)
    ensures FindOne(docs + [NewMember(data, id, now)], "id", Str(id)) == Some(NewMember(data, id, now))
    ensures FindOne(docs + [Stamped(data, id, "createdAt", now)], "id", Str(id)) == Some(Stamped(data, id, "createdAt", now))
  {
    AppendedFound(docs, NewMember(data, id, now), "id", Str(id));
    AppendedFound(docs, Stamped(data, id, "createdAt", now), "id", Str(id));
  }

  /** A caller-supplied id that an older record already has is the new
      member's (or payment's, image's, initiative's, goal's) id, yet the new
      record is unreachable by it: findById yields the oldest record with
      that id, and update and delete act on that one. */
  lemma CallerIdShadowed(docs: seq<Record>, data: Record, id: string, now: int, k: int)
    requires "id" in data && 0 <= k < |docs| && Field(docs[k], "id") == data["id"]
    ensures Field(NewMember(data, id, now), "id") == data["id"]
    ensures Field(Stamped(data, id, "createdAt", now), "id") == data["id"]
    ensures FindOne(docs + [NewMember(data, id, now)], "id", data["id"]) == FindOne(docs, "id", data["id"])
    ensures FindOne(docs + [Stamped(data, id, "createdAt", now)], "id", data["id"]) == FindOne(docs, "id", data["id"])
    ensures FirstMatch(docs, "id", data["id"]) <= k
  {
    AppendedShadowed(docs, NewMember(data, id, now), "id", data["id"], k);
    AppendedShadowed(docs, Stamped(data, id, "createdAt", now), "id", data["id"], k);
  }

  /** Updating a record by id with a patch that leaves the id alone, then
      finding by id, gives the patched record; with no such record both
      leave the collection as it was and the find gives nothing. */
  lemma UpdateThenFindById(docs: seq<Record>, id: string, data: Record, now: int)
    requires "id" !in data
    ensures var i := FirstMatch(docs, "id", Str(id));
      var after := UpdateOne(docs, "id", Str(id), UpdatePatch(data, now));
      && (i >= 0 ==> FindOne(after, "id", Str(id)) == Some(after[i]))
      && (i < 0 ==> after == docs && FindOne(after, "id", Str(id)) == None)
  {
    var i := FirstMatch(docs, "id", Str(id));
    var after := UpdateOne(docs, "id", Str(id), UpdatePatch(data, now));
    if i >= 0 {
      assert Field(after[i], "id") == Field(docs[i], "id");
      FirstMatchIs(after, "id", Str(id), i);
    }
  }

  /** An upsert followed by findByKey yields the value and type just
      written. */
  lemma ContentUpsertThenFind(docs: seq<Record>, key: string, value: Value, kind: Option<Value>, id: string, now: int)
    ensures var found := FindOne(UpsertOne(docs, "key", Str(key), NewContent(key, value, kind, id, now)), "key", Str(key));
      && found.Some?
      && found.value["value"] == value
      && found.value["type"] == (if kind.None? then Str("text") else kind.value)
  {
    UpsertThenFind(docs, "key", Str(key), NewContent(key, value, kind, id, now));
  }

  /** Upserting the same key twice leaves exactly one record for it,
      holding the second value. */
  lemma ContentUpsertTwice(docs: seq<Record>, key: string, v1: Value, v2: Value, kind: Option<Value>, id1: string, id2: string, t1: int, t2: int)
    requires KeysUnique(docs, "key")
    ensures var once := UpsertOne(docs, "key", Str(key), NewContent(key, v1, kind, id1, t1));
      var twice := UpsertOne(once, "key", Str(key), NewContent(key, v2, kind, id2, t2));
      && KeysUnique(twice, "key")
      && |Where(twice, "key", Str(key))| == 1
      && FindOne(twice, "key", Str(key)).value["value"] == v2
  {
    var c1 := NewContent(key, v1, kind, id1, t1);
    var c2 := NewContent(key, v2, kind, id2, t2);
    var once := UpsertOne(docs, "key", Str(key), c1);
    var twice := UpsertOne(once, "key", Str(key), c2);
    UpsertKeepsKeysUnique(docs, "key", Str(key), c1);
    UpsertKeepsKeysUnique(once, "key", Str(key), c2);
    UpsertThenFind(once, "key", Str(key), c2);
    UniqueKeyAtMostOne(twice, "key", Str(key));
    var found := FindOne(twice, "key", Str(key));
    assert found.value in multiset(twice);
    assert multiset(Where(twice, "key", Str(key)))[found.value] > 0;
  }
}

/** The list of a user's active loved ones, each with the loved one's
    own user record. */
module LovedOneController {
  import opened Common
  import opened Tables

  const FETCHED: string := "Loved ones fetched successfully"

  /** `LovedOneSchema`. */
  datatype LovedOneView = LovedOneView(
    id: int,
    userId: int,
    lovedOne: User,
    isActive: bool,
    createdAt: int,
    updatedAt: int)

  datatype LovedOneList = LovedOneList(message: string, lovedOnes: seq<LovedOneView>, count: int)

  /** The loved-one foreign key always names an existing user. */
  predicate TargetsExist(users: seq<User>, lovedOnes: seq<LovedOne>)
  {
    forall i :: 0 <= i < |lovedOnes| ==> FindUser(users, lovedOnes[i].lovedOneId).Some?
  }

  /** The entry for one relationship. */
  function ViewOf(users: seq<User>, l: LovedOne): (v: LovedOneView)
    requires FindUser(users, l.lovedOneId).Some?
    ensures v.lovedOne in users && v.lovedOne.id == l.lovedOneId
  {
    LovedOneView(l.id, l.userId, FindUser(users, l.lovedOneId).value, l.isActive, l.createdAt, l.updatedAt)
  }

  /** `get_user_loved_ones`. */
  method GetUserLovedOnes(users: seq<User>, lovedOnes: seq<LovedOne>, userId: int) returns (r: LovedOneList)
    requires TargetsExist(users, lovedOnes)
    ensures r.message == FETCHED && r.count == |r.lovedOnes|
    ensures var rels := ActiveLovedOnes(lovedOnes, userId);
      |r.lovedOnes| == |rels| && forall i :: 0 <= i < |rels| ==> r.lovedOnes[i] == ViewOf(users, rels[i])
  {
    var rels := ActiveLovedOnes(lovedOnes, userId);
    var views: seq<LovedOneView> := [];
    for i := 0 to |rels|
      invariant |views| == i
      invariant forall j :: 0 <= j < i ==> FindUser(users, rels[j].lovedOneId).Some? && views[j] == ViewOf(users, rels[j])
    {
      var rel := rels[i];
      assert rel in lovedOnes;
      var target := FindUser(users, rel.lovedOneId);
      views := views + [LovedOneView(rel.id, rel.userId, target.value, rel.isActive, rel.createdAt, rel.updatedAt)];
    }
    r := LovedOneList(FETCHED, views, |views|);
  }

  /** Every entry is an active relationship of the requester, pointing at
      an existing user, newest first; and every such relationship is
      listed. */
  lemma {:induction false} LovedOnesAreTheRequesters(users: seq<User>, lovedOnes: seq<LovedOne>, userId: int,
                                                     r: LovedOneList)
    requires TargetsExist(users, lovedOnes)
    requires var rels := ActiveLovedOnes(lovedOnes, userId);
      |r.lovedOnes| == |rels| && forall i :: 0 <= i < |rels| ==> r.lovedOnes[i] == ViewOf(users, rels[i])
    ensures forall i :: 0 <= i < |r.lovedOnes| ==>
      r.lovedOnes[i].userId == userId && r.lovedOnes[i].isActive && r.lovedOnes[i].lovedOne in users
    ensures forall i, j :: 0 <= i < j < |r.lovedOnes| ==> r.lovedOnes[i].createdAt >= r.lovedOnes[j].createdAt
    ensures forall l :: l in lovedOnes && l.userId == userId && l.isActive ==>
      exists i :: 0 <= i < |r.lovedOnes| && r.lovedOnes[i].id == l.id
  {
    var rels := ActiveLovedOnes(lovedOnes, userId);
    forall i | 0 <= i < |r.lovedOnes|
      ensures r.lovedOnes[i].userId == userId && r.lovedOnes[i].isActive && r.lovedOnes[i].lovedOne in users
    {
      assert rels[i] in lovedOnes;
    }
    forall i, j | 0 <= i < j < |r.lovedOnes| ensures r.lovedOnes[i].createdAt >= r.lovedOnes[j].createdAt {
      assert LovedOneNewerFirst(rels[i], rels[j]);
    }
    forall l | l in lovedOnes && l.userId == userId && l.isActive
      ensures exists i :: 0 <= i < |r.lovedOnes| && r.lovedOnes[i].id == l.id
    {
      var k :| 0 <= k < |lovedOnes| && lovedOnes[k] == l;
      var i :| 0 <= i < |rels| && rels[i] == l;
      assert rels[i] in lovedOnes;
      assert r.lovedOnes[i].id == l.id;
    }
  }
}

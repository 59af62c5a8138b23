/** The backend's in-memory mock user store. */
module Users {
  import opened Optional

  datatype User = User(id: int, name: Option<string>, age: Option<int>)

  /** A request body; a field is `None` when the body does not have that key. */
  datatype UserData = UserData(id: Option<int>, name: Option<string>, age: Option<int>)

  /** The store as the module starts. */
  function InitialUsers(): (r: seq<User>)
    ensures |r| == 1 && r[0].id == 1 && r[0].name == Some("Arsh") && r[0].age == Some(21)
  {
    [User(1, Some("Arsh"), Some(21))]
  }

  /** `findAll`: the list itself. */
  function FindAll(users: seq<User>): (r: seq<User>)
    ensures r == users
  {
    users
  }

  /** `create(data)`: `{ id: users.length + 1, ...data }` appended and returned; a
      field of the body overrides the computed id because the spread comes last. */
  function Create(users: seq<User>, data: UserData): (r: (seq<User>, User))
    ensures |r.0| == |users| + 1 && r.0[..|users|] == users && r.0[|users|] == r.1
    ensures r.1.id == data.id.GetOr(|users| + 1)
    ensures r.1.name == data.name && r.1.age == data.age
  {
    var user := User(data.id.GetOr(|users| + 1), data.name, data.age);
    (users + [user], user)
  }

  /** A run of `create` requests, each body in turn. */
  function CreateAll(users: seq<User>, bodies: seq<UserData>): (r: seq<User>)
    ensures |r| == |users| + |bodies| && r[..|users|] == users
    decreases |bodies|
  {
    if bodies == [] then users
    else
      var next := Create(users, bodies[0]).0;
      var r := CreateAll(next, bodies[1..]);
      assert r[..|users|] == r[..|next|][..|users|];
      r
  }

  /** What `findAll` lists after a run of requests without ids: the earlier users,
      then one user per body with its name and age, the ids still 1, 2, 3, … */
  lemma {:induction false} FindAllAfterCreates(users: seq<User>, bodies: seq<UserData>)
    requires Sequential(users)
    requires forall k :: 0 <= k < |bodies| ==> bodies[k].id.None?
    ensures var all := FindAll(CreateAll(users, bodies));
            && Sequential(all)
            && all[..|users|] == users
            && forall k :: 0 <= k < |bodies| ==>
                 all[|users| + k].name == bodies[k].name && all[|users| + k].age == bodies[k].age
    decreases |bodies|
  {
    if bodies != [] {
      var next := Create(users, bodies[0]).0;
      CreateKeepsSequential(users, bodies[0]);
      FindAllAfterCreates(next, bodies[1..]);
      var all := CreateAll(users, bodies);
      assert all == CreateAll(next, bodies[1..]);
      assert all[|users|] == next[|users|] by {
        assert all[..|next|] == next;
      }
      forall k | 1 <= k < |bodies|
        ensures all[|users| + k].name == bodies[k].name && all[|users| + k].age == bodies[k].age
      {
        assert all[|next| + (k - 1)] == all[|users| + k];
      }
    }
  }

  /** Ids are the positions counted from one. */
  predicate Sequential(users: seq<User>) {
    forall i :: 0 <= i < |users| ==> users[i].id == i + 1
  }

  /** Creating without an id keeps the ids sequential, hence distinct. */
  lemma CreateKeepsSequential(users: seq<User>, data: UserData)
    requires Sequential(users) && data.id.None?
    ensures Sequential(Create(users, data).0)
  {
  }

  /** Sequential ids are distinct. */
  lemma SequentialDistinct(users: seq<User>, i: int, j: int)
    requires Sequential(users) && 0 <= i < j < |users|
    ensures users[i].id != users[j].id
  {
  }

  /** A body that carries an existing id yields two users with that id. */
  lemma IdOverrideDuplicates(users: seq<User>, data: UserData, k: int)
    requires 0 <= k < |users| && data.id == Some(users[k].id)
    ensures var after := Create(users, data).0;
            after[k].id == after[|users|].id && k != |users|
  {
  }
}

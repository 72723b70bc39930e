/**
 * The in-memory users model of backend/src/models/usersModel.js: one
 * module-level array of plain objects, handed out as is by `listUsers` and
 * extended in place by `addUser`.
 */
module UsersModel {
  import opened Js

  /** `users.length ? users[users.length - 1].id + 1 : 1`. */
  function NextId(items: seq<map<string, Value>>): (id: Value)
    ensures items == [] ==> id == Num(1)
    ensures items != [] && Get(items[|items| - 1], "id").Num? ==>
              id == Num(Get(items[|items| - 1], "id").n + 1)
  {
    if |items| == 0 then Num(1) else PlusOne(Get(items[|items| - 1], "id"))
  }

  /** A last `id` that is a string makes `+ 1` concatenate. */
  lemma StringIdConcatenates(items: seq<map<string, Value>>, last: string)
    requires items != [] && Get(items[|items| - 1], "id") == Str(last)
    ensures NextId(items) == Str(last + "1")
  {
  }

  /** The module-level array. */
  class UserList {
    var items: seq<map<string, Value>>

    /** The array as the module starts it: Alice with id 1, Bob with id 2. */
    constructor ()
      ensures items == [map["id" := Num(1), "name" := Str("Alice")], map["id" := Num(2), "name" := Str("Bob")]]
    {
      items := [map["id" := Num(1), "name" := Str("Alice")], map["id" := Num(2), "name" := Str("Bob")]];
    }

    /** `addUser(user)`: `{ id, ...user }` pushed at the end and returned.
        The generated id is used unless the argument has its own `id`. */
    method AddUser(user: map<string, Value>) returns (newUser: map<string, Value>)
      modifies this
      ensures items == old(items) + [newUser]
      ensures newUser.Keys == user.Keys + {"id"}
      ensures forall k :: k in user ==> newUser[k] == user[k]
      ensures "id" !in user ==> newUser["id"] == NextId(old(items))
    {
      newUser := Spread(map["id" := NextId(items)], user);
      items := items + [newUser];
    }

    /** `listUsers()`: the array itself, not a copy. */
    method ListUsers() returns (list: UserList)
      ensures list == this
    {
      list := this;
    }
  }

  /** Adding users without an `id` to a list ending in id `n` numbers them
      `n + 1`, `n + 2`: the id after an added user is one more than its id. */
  lemma SequentialIds(items: seq<map<string, Value>>, user: map<string, Value>, n: int)
    requires items != [] && Get(items[|items| - 1], "id") == Num(n)
    requires "id" !in user
    ensures NextId(items + [Spread(map["id" := NextId(items)], user)]) == Num(n + 2)
  {
    var added := Spread(map["id" := NextId(items)], user);
    assert (items + [added])[|items|] == added;
    assert Get(added, "id") == Num(n + 1);
  }

  /** A listing taken before an `addUser` shows the added user: the list
      handed out is the live array. */
  method LiveListing() returns (count: nat, third: Value)
    ensures count == 3 && third == Num(3)
  {
    var users := new UserList();
    var view := users.ListUsers();
    var carol := users.AddUser(map["name" := Str("Carol")]);
    count := |view.items|;
    third := Get(view.items[2], "id");
  }
}

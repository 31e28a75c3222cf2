/** The three list rules both post views apply to their `posts` state: insert a new post,
    replace a post in place, remove a post. Each is the pure updater passed to `setPosts`. */
module Reconcile {
  import opened Common
  import opened Entities

  /** `s.some(p => p._id === key)`. */
  predicate HasId(s: seq<Post>, key: Option<string>) {
    exists i :: 0 <= i < |s| && s[i].id == key
  }

  /** No `_id` occurs twice (a missing `_id` counts as one value). */
  predicate UniqueIds(s: seq<Post>) {
    forall i, j :: 0 <= i < j < |s| ==> s[i].id != s[j].id
  }

  /** The `new_post` updater: ignore a post with a falsy `_id` or one already listed,
      otherwise put it first. */
  function InsertNew(prev: seq<Post>, post: Post): (r: seq<Post>)
    ensures r == prev || (|r| == |prev| + 1 && r[0] == post && r[1..] == prev)
    ensures |r| == |prev| + 1 <==> Truthy(post.id) && !HasId(prev, post.id)
    ensures Truthy(post.id) ==> HasId(r, post.id)
  {
    if !Truthy(post.id) || HasId(prev, post.id) then prev
    else
      var r := [post] + prev;
      assert r[0].id == post.id;
      r
  }

  /** `prev.map(p => p._id === key ? next : p)`: the `post_updated` updater (with `key` the
      incoming post's own `_id`) and the updater every action result goes through. */
  function ReplaceWhere(prev: seq<Post>, key: Option<string>, next: Post): (r: seq<Post>)
    ensures |r| == |prev|
    ensures forall i :: 0 <= i < |prev| && prev[i].id == key ==> r[i] == next
    ensures forall i :: 0 <= i < |prev| && prev[i].id != key ==> r[i] == prev[i]
  {
    seq(|prev|, i requires 0 <= i < |prev| => if prev[i].id == key then next else prev[i])
  }

  /** `prev.filter(p => p._id !== key)`: the `post_deleted` updater and the delete-post result. */
  function RemoveWhere(prev: seq<Post>, key: Option<string>): (r: seq<Post>)
    ensures forall p :: p in r <==> p in prev && p.id != key
    ensures !HasId(r, key)
    ensures |r| <= |prev|
  {
    if prev == [] then []
    else
      var rest := RemoveWhere(prev[1..], key);
      assert forall p :: p in prev <==> p == prev[0] || p in prev[1..];
      if prev[0].id == key then rest
      else
        var r := [prev[0]] + rest;
        assert forall k :: 0 < k < |r| ==> r[k] == rest[k - 1];
        r
  }

  // ----- create -----

  /** Redelivering the same `new_post` event changes nothing. */
  lemma InsertNewIdempotent(prev: seq<Post>, post: Post)
    ensures InsertNew(InsertNew(prev, post), post) == InsertNew(prev, post)
  {
  }

  /** A new post is only accepted under an id not yet listed, so ids stay unique. */
  lemma InsertNewKeepsUnique(prev: seq<Post>, post: Post)
    requires UniqueIds(prev)
    ensures UniqueIds(InsertNew(prev, post))
  {
    var r := InsertNew(prev, post);
    if r != prev {
      forall i, j | 0 <= i < j < |r| ensures r[i].id != r[j].id {
        if i == 0 {
          assert r[j] == prev[j - 1];
        } else {
          assert r[i] == prev[i - 1] && r[j] == prev[j - 1];
        }
      }
    }
  }

  // ----- update -----

  /** An update for an id that is not listed inserts nothing and changes nothing. */
  lemma ReplaceAbsentIsNoop(prev: seq<Post>, key: Option<string>, next: Post)
    requires !HasId(prev, key)
    ensures ReplaceWhere(prev, key, next) == prev
  {
    var r := ReplaceWhere(prev, key, next);
    forall i | 0 <= i < |prev| ensures r[i] == prev[i] {
      assert prev[i].id != key;
    }
  }

  /** Replacing by a post that carries the matched id keeps every position's id, hence
      uniqueness; this is the `post_updated` case. */
  lemma ReplaceKeepsUnique(prev: seq<Post>, key: Option<string>, next: Post)
    requires UniqueIds(prev)
    requires next.id == key
    ensures UniqueIds(ReplaceWhere(prev, key, next))
    ensures forall i :: 0 <= i < |prev| ==> ReplaceWhere(prev, key, next)[i].id == prev[i].id
  {
  }

  /** Applying the same update twice is the same as applying it once. */
  lemma ReplaceIdempotent(prev: seq<Post>, next: Post)
    ensures ReplaceWhere(ReplaceWhere(prev, next.id, next), next.id, next) == ReplaceWhere(prev, next.id, next)
  {
  }

  // ----- delete -----

  /** Deleting an id that is not listed changes nothing. */
  lemma {:induction false} RemoveAbsentIsNoop(prev: seq<Post>, key: Option<string>)
    requires !HasId(prev, key)
    ensures RemoveWhere(prev, key) == prev
  {
    if prev != [] {
      assert prev[0].id != key;
      assert !HasId(prev[1..], key) by {
        forall i | 0 <= i < |prev[1..]| ensures prev[1..][i].id != key {
          assert prev[1..][i] == prev[i + 1];
        }
      }
      RemoveAbsentIsNoop(prev[1..], key);
      assert prev == [prev[0]] + prev[1..];
    }
  }

  /** Removal works piecewise, so the entries that stay keep their relative order. */
  lemma {:induction false} RemoveDistributes(a: seq<Post>, b: seq<Post>, key: Option<string>)
    ensures RemoveWhere(a + b, key) == RemoveWhere(a, key) + RemoveWhere(b, key)
  {
    if a == [] {
      assert a + b == b;
    } else {
      assert (a + b)[0] == a[0];
      assert (a + b)[1..] == a[1..] + b;
      RemoveDistributes(a[1..], b, key);
    }
  }

  /** Removal only drops entries, so ids stay unique. */
  lemma {:induction false} RemoveKeepsUnique(prev: seq<Post>, key: Option<string>)
    requires UniqueIds(prev)
    ensures UniqueIds(RemoveWhere(prev, key))
  {
    if prev != [] {
      var rest := RemoveWhere(prev[1..], key);
      assert UniqueIds(prev[1..]) by {
        forall i, j | 0 <= i < j < |prev[1..]| ensures prev[1..][i].id != prev[1..][j].id {
          assert prev[1..][i] == prev[i + 1] && prev[1..][j] == prev[j + 1];
        }
      }
      RemoveKeepsUnique(prev[1..], key);
      if prev[0].id != key {
        var r := [prev[0]] + rest;
        forall i, j | 0 <= i < j < |r| ensures r[i].id != r[j].id {
          if i == 0 {
            assert r[j] in prev[1..];
            var m :| 0 <= m < |prev[1..]| && prev[1..][m] == r[j];
            assert prev[m + 1] == r[j];
          } else {
            assert r[i] == rest[i - 1] && r[j] == rest[j - 1];
          }
        }
        assert RemoveWhere(prev, key) == r;
      }
    }
  }

  /** With unique ids, deleting a listed id removes exactly one entry. */
  lemma {:induction false} RemoveExactlyOne(prev: seq<Post>, key: Option<string>)
    requires UniqueIds(prev)
    requires HasId(prev, key)
    ensures |RemoveWhere(prev, key)| == |prev| - 1
  {
    if prev[0].id == key {
      assert !HasId(prev[1..], key) by {
        forall i | 0 <= i < |prev[1..]| ensures prev[1..][i].id != key {
          assert prev[1..][i] == prev[i + 1];
        }
      }
      RemoveAbsentIsNoop(prev[1..], key);
    } else {
      var k :| 0 <= k < |prev| && prev[k].id == key;
      assert prev[1..][k - 1].id == key;
      assert UniqueIds(prev[1..]) by {
        forall i, j | 0 <= i < j < |prev[1..]| ensures prev[1..][i].id != prev[1..][j].id {
          assert prev[1..][i] == prev[i + 1] && prev[1..][j] == prev[j + 1];
        }
      }
      RemoveExactlyOne(prev[1..], key);
    }
  }

  /** The reconciliation scenario: [1, 2], then create 3, update 1, delete 2, gives [3, 1']. */
  lemma CreateUpdateDeleteScenario(p1: Post, p2: Post, p3: Post, p1x: Post)
    requires p1.id == Some("1") && p2.id == Some("2") && p3.id == Some("3") && p1x.id == Some("1")
    ensures RemoveWhere(ReplaceWhere(InsertNew([p1, p2], p3), p1x.id, p1x), Some("2")) == [p3, p1x]
  {
    assert !HasId([p1, p2], p3.id);
    var s1 := InsertNew([p1, p2], p3);
    assert s1 == [p3, p1, p2];
    var s2 := ReplaceWhere(s1, p1x.id, p1x);
    assert s2 == [p3, p1x, p2];
    assert s2[1..][1..] == [p2];
    assert RemoveWhere([p2], Some("2")) == [];
  }
}

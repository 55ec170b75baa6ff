/** OpenApiTagSorter: reorders the tags of the generated OpenAPI document so
 *  that the named sections come first, in a fixed order, and every other
 *  tag follows as it was. */
module OpenApiTagSorter {
  import opened Common

  /** A tag of the document; only its name takes part in the ordering. */
  datatype Tag = Tag(name: string, description: Option<string>)

  /** TAG_ORDER */
  const TagOrder: seq<string> := ["Tenants", "Plans", "Subscriptions", "Subscription Management",
                                  "Ecommerce Subscriptions", "Deliveries", "Customer Dashboard", "Customers",
                                  "Webhooks"]

  predicate Distinct(names: seq<string>)
  {
    forall i, j :: 0 <= i < j < |names| ==> names[i] != names[j]
  }

  lemma TagOrderDistinct()
    ensures Distinct(TagOrder)
  {
  }

  /** The names of a list of tags, in order. */
  function Names(tags: seq<Tag>): (r: seq<string>)
    ensures |r| == |tags| && forall i :: 0 <= i < |tags| ==> r[i] == tags[i].name
  {
    seq(|tags|, i requires 0 <= i < |tags| => tags[i].name)
  }

  /** Where a name first occurs in a list of names. */
  function IndexOf(names: seq<string>, n: string): (r: nat)
    requires n in names
    ensures r < |names| && names[r] == n && forall k :: 0 <= k < r ==> names[k] != n
  {
    if names[0] == n then 0 else 1 + IndexOf(names[1..], n)
  }

  /** The position of the first tag with the given name (a stream's
   *  findFirst), none when no tag has it. */
  function FirstNamed(tags: seq<Tag>, n: string): (r: Option<nat>)
    ensures r.Some? ==> r.value < |tags| && tags[r.value].name == n
                        && forall k :: 0 <= k < r.value ==> tags[k].name != n
    ensures r.None? <==> forall k :: 0 <= k < |tags| ==> tags[k].name != n
  {
    if tags == [] then None
    else if tags[0].name == n then Some(0)
    else
      var r := FirstNamed(tags[1..], n);
      assert forall k :: 1 <= k < |tags| ==> tags[k] == tags[1..][k - 1];
      if r.None? then None else Some(r.value + 1)
  }

  /** What one name of the order contributes: its first tag, if any. */
  function Hit(tags: seq<Tag>, n: string): (r: seq<Tag>)
    ensures |r| <= 1
  {
    var first := FirstNamed(tags, n);
    if first.Some? then [tags[first.value]] else []
  }

  /** The tags picked for the names of `order`, one pass per name. */
  function Picked(order: seq<string>, tags: seq<Tag>): seq<Tag>
  {
    if order == [] then [] else Picked(order[..|order| - 1], tags) + Hit(tags, order[|order| - 1])
  }

  /** The tags whose names are not in `order`, in their original order. */
  function Rest(tags: seq<Tag>, order: seq<string>): (r: seq<Tag>)
    ensures forall i :: 0 <= i < |r| ==> r[i].name !in order
  {
    if tags == [] then []
    else Rest(tags[..|tags| - 1], order) + if tags[|tags| - 1].name in order then [] else [tags[|tags| - 1]]
  }

  /** The list customise installs. */
  function Sorted(tags: seq<Tag>): seq<Tag>
  {
    Picked(TagOrder, tags) + Rest(tags, TagOrder)
  }

  // ---------------------------------------------------------------- the picked part

  /** A tag is the first one carrying its name. */
  predicate IsFirstMatch(tags: seq<Tag>, t: Tag)
  {
    FirstNamed(tags, t.name).Some? && t == tags[FirstNamed(tags, t.name).value]
  }

  /** Every picked tag is the first tag carrying its name, and that name is
   *  in the order. */
  lemma {:induction false} PickedAreFirstMatches(order: seq<string>, tags: seq<Tag>)
    ensures forall i :: 0 <= i < |Picked(order, tags)| ==>
              Picked(order, tags)[i].name in order && IsFirstMatch(tags, Picked(order, tags)[i])
  {
    if order != [] {
      var front := order[..|order| - 1];
      var p0 := Picked(front, tags);
      var h := Hit(tags, order[|order| - 1]);
      var p := Picked(order, tags);
      assert p == p0 + h;
      PickedAreFirstMatches(front, tags);
      forall i | 0 <= i < |p|
        ensures p[i].name in order && IsFirstMatch(tags, p[i])
      {
        if i < |p0| {
          assert p[i] == p0[i];
          assert p0[i].name in front;
        } else {
          assert p[i] == h[0];
        }
      }
    }
  }

  /** A name of the order that some tag carries is picked. */
  lemma {:induction false} PickedWhenCarried(order: seq<string>, tags: seq<Tag>, n: string)
    requires n in order && FirstNamed(tags, n).Some?
    ensures n in Names(Picked(order, tags))
  {
    var k := |order| - 1;
    var front := order[..k];
    var p0 := Picked(front, tags);
    var p := Picked(order, tags);
    assert p == p0 + Hit(tags, order[k]);
    if n == order[k] {
      assert p[|p| - 1].name == n;
    } else {
      assert n in front by {
        var i := IndexOf(order, n);
        assert front[i] == n;
      }
      PickedWhenCarried(front, tags, n);
      var i :| 0 <= i < |p0| && Names(p0)[i] == n;
      assert p[i] == p0[i];
    }
    assert Names(p)[|p| - 1] == p[|p| - 1].name;
  }

  /** A name of the order is picked exactly when some tag carries it. */
  lemma PickedCover(order: seq<string>, tags: seq<Tag>, n: string)
    requires n in order
    ensures n in Names(Picked(order, tags)) <==> FirstNamed(tags, n).Some?
  {
    var p := Picked(order, tags);
    PickedAreFirstMatches(order, tags);
    if n in Names(p) {
      var i :| 0 <= i < |p| && Names(p)[i] == n;
      assert p[i].name == n;
    }
    if FirstNamed(tags, n).Some? {
      PickedWhenCarried(order, tags, n);
    }
  }

  /** Names of a prefix keep their position in the whole. */
  lemma IndexOfPrefix(names: seq<string>, k: nat, n: string)
    requires k <= |names| && n in names[..k]
    ensures IndexOf(names, n) == IndexOf(names[..k], n)
  {
    var i := IndexOf(names[..k], n);
    assert names[i] == n;
    assert forall j :: 0 <= j < i ==> names[j] == names[..k][j];
  }

  /** The last name of a list without repeats occurs last. */
  lemma IndexOfLast(names: seq<string>)
    requires names != [] && Distinct(names)
    ensures IndexOf(names, names[|names| - 1]) == |names| - 1
  {
  }

  /** Tags whose names all come from the order, listed in that order. */
  predicate InOrder(order: seq<string>, p: seq<Tag>)
  {
    forall i, j :: 0 <= i < j < |p| ==>
      p[i].name in order && p[j].name in order && IndexOf(order, p[i].name) < IndexOf(order, p[j].name)
  }

  /** The picked tags follow the order of their names. */
  lemma {:induction false} PickedInOrder(order: seq<string>, tags: seq<Tag>)
    requires Distinct(order)
    ensures InOrder(order, Picked(order, tags))
  {
    if order != [] {
      var k := |order| - 1;
      var front := order[..k];
      var p0 := Picked(front, tags);
      var h := Hit(tags, order[k]);
      var p := Picked(order, tags);
      assert p == p0 + h;
      PickedInOrder(front, tags);
      PickedAreFirstMatches(front, tags);
      PickedAreFirstMatches(order, tags);
      IndexOfLast(order);
      forall i, j | 0 <= i < j < |p|
        ensures p[i].name in order && p[j].name in order && IndexOf(order, p[i].name) < IndexOf(order, p[j].name)
      {
        assert p[i] == p0[i];
        IndexOfPrefix(order, k, p0[i].name);
        if j < |p0| {
          assert p[j] == p0[j];
          IndexOfPrefix(order, k, p0[j].name);
        } else {
          assert p[j] == h[0];
        }
      }
    }
  }

  /** Two lists with the same first matches for the names of the order pick
   *  the same tags. */
  lemma {:induction false} PickedSameHits(order: seq<string>, t1: seq<Tag>, t2: seq<Tag>)
    requires forall n :: n in order ==> Hit(t1, n) == Hit(t2, n)
    ensures Picked(order, t1) == Picked(order, t2)
  {
    if order != [] {
      var front := order[..|order| - 1];
      assert forall n :: n in front ==> n in order;
      PickedSameHits(front, t1, t2);
    }
  }

  // ---------------------------------------------------------------- the rest

  lemma {:induction false} RestAppend(a: seq<Tag>, b: seq<Tag>, order: seq<string>)
    ensures Rest(a + b, order) == Rest(a, order) + Rest(b, order)
  {
    if b != [] {
      var b0 := b[..|b| - 1];
      var x := b[|b| - 1];
      assert (a + b)[..|a + b| - 1] == a + b0;
      assert (a + b)[|a + b| - 1] == x;
      RestAppend(a, b0, order);
      var tail := if x.name in order then [] else [x];
      assert Rest(a + b, order) == Rest(a, order) + Rest(b0, order) + tail;
      assert Rest(b, order) == Rest(b0, order) + tail;
      assert Rest(a, order) + Rest(b0, order) + tail == Rest(a, order) + (Rest(b0, order) + tail);
    } else {
      assert a + b == a;
    }
  }

  /** Tags whose names are all in the order leave no rest; tags whose names
   *  are none of them are their own rest. */
  lemma {:induction false} RestOfNamed(tags: seq<Tag>, order: seq<string>)
    requires forall i :: 0 <= i < |tags| ==> tags[i].name in order
    ensures Rest(tags, order) == []
  {
    if tags != [] {
      RestOfNamed(tags[..|tags| - 1], order);
    }
  }

  lemma {:induction false} RestOfUnnamed(tags: seq<Tag>, order: seq<string>)
    requires forall i :: 0 <= i < |tags| ==> tags[i].name !in order
    ensures Rest(tags, order) == tags
  {
    if tags != [] {
      RestOfUnnamed(tags[..|tags| - 1], order);
    }
  }

  // ---------------------------------------------------------------- the sorted list

  /** A tag of the result named in TAG_ORDER is one of the picked part. */
  lemma NamedArePicked(tags: seq<Tag>, i: nat)
    requires i < |Sorted(tags)| && Sorted(tags)[i].name in TagOrder
    ensures i < |Picked(TagOrder, tags)| && Sorted(tags)[i] == Picked(TagOrder, tags)[i]
  {
  }

  /** Tags named in TAG_ORDER come first, in TAG_ORDER's order. */
  lemma SortedFollowsTagOrder(tags: seq<Tag>)
    ensures var out := Sorted(tags);
            forall i, j :: 0 <= i < j < |out| && out[j].name in TagOrder ==>
              out[i].name in TagOrder && IndexOf(TagOrder, out[i].name) < IndexOf(TagOrder, out[j].name)
  {
    var p := Picked(TagOrder, tags);
    var out := Sorted(tags);
    TagOrderDistinct();
    PickedInOrder(TagOrder, tags);
    forall i, j | 0 <= i < j < |out| && out[j].name in TagOrder
      ensures out[i].name in TagOrder && IndexOf(TagOrder, out[i].name) < IndexOf(TagOrder, out[j].name)
    {
      NamedArePicked(tags, j);
      assert out[i] == p[i];
    }
  }

  /** A name of TAG_ORDER appears in the result exactly when some tag
   *  carries it. */
  lemma SortedCover(tags: seq<Tag>, n: string)
    requires n in TagOrder
    ensures n in Names(Sorted(tags)) <==> FirstNamed(tags, n).Some?
  {
    var p := Picked(TagOrder, tags);
    var out := Sorted(tags);
    PickedCover(TagOrder, tags, n);
    if n in Names(p) {
      var i :| 0 <= i < |p| && Names(p)[i] == n;
      assert out[i] == p[i];
      assert Names(out)[i] == n;
    }
    if n in Names(out) {
      var i :| 0 <= i < |out| && Names(out)[i] == n;
      NamedArePicked(tags, i);
      assert Names(p)[i] == n;
    }
  }

  /** A tag of the result named in TAG_ORDER is the first input tag with
   *  that name, and no other tag of the result carries the name. */
  lemma SortedTakesFirstMatch(tags: seq<Tag>, i: nat)
    requires i < |Sorted(tags)| && Sorted(tags)[i].name in TagOrder
    ensures IsFirstMatch(tags, Sorted(tags)[i])
    ensures forall j :: 0 <= j < |Sorted(tags)| && j != i ==> Sorted(tags)[j].name != Sorted(tags)[i].name
  {
    var p := Picked(TagOrder, tags);
    var out := Sorted(tags);
    NamedArePicked(tags, i);
    PickedAreFirstMatches(TagOrder, tags);
    TagOrderDistinct();
    PickedInOrder(TagOrder, tags);
    forall j | 0 <= j < |out| && j != i && out[j].name in TagOrder
      ensures out[j].name != out[i].name
    {
      NamedArePicked(tags, j);
    }
  }

  /** Tags not named in TAG_ORDER keep their original relative order: the
   *  unnamed tags of the result are those of the input. */
  lemma SortedKeepsTheRest(tags: seq<Tag>)
    ensures Rest(Sorted(tags), TagOrder) == Rest(tags, TagOrder)
  {
    var p := Picked(TagOrder, tags);
    PickedAreFirstMatches(TagOrder, tags);
    RestAppend(p, Rest(tags, TagOrder), TagOrder);
    RestOfNamed(p, TagOrder);
    RestOfUnnamed(Rest(tags, TagOrder), TagOrder);
  }

  /** Sorting a sorted list changes nothing. */
  lemma SortedIsIdempotent(tags: seq<Tag>)
    ensures Sorted(Sorted(tags)) == Sorted(tags)
  {
    var out := Sorted(tags);
    forall n | n in TagOrder
      ensures Hit(out, n) == Hit(tags, n)
    {
      SortedCover(tags, n);
      if FirstNamed(tags, n).Some? {
        var i :| 0 <= i < |out| && Names(out)[i] == n;
        SortedTakesFirstMatch(tags, i);
        assert FirstNamed(out, n) == Some(i);
      } else {
        assert forall k :: 0 <= k < |out| ==> Names(out)[k] != n;
      }
    }
    PickedSameHits(TagOrder, out, tags);
    SortedKeepsTheRest(tags);
  }

  // ---------------------------------------------------------------- the customizer

  class OpenApi {
    /** The document's tag list; null when the document has none. */
    var tags: Option<seq<Tag>>

    constructor(tags: Option<seq<Tag>>)
      ensures this.tags == tags
    {
      this.tags := tags;
    }

    /** customise: without tags nothing changes; otherwise the tag list is
     *  replaced by the ordered one. */
    method Customise()
      modifies this
      ensures old(tags).None? ==> tags == old(tags)
      ensures old(tags).Some? ==> tags == Some(Sorted(old(tags).value))
    {
      if tags.None? {
        return;
      }
      var current := tags.value;
      var orderedTags := PickInOrder(TagOrder, current);
      orderedTags := AppendRest(orderedTags, current, TagOrder);
      tags := Some(orderedTags);
    }
  }

  /** The first loop of customise: for each name of the order, the first
   *  tag carrying it, if any. */
  method PickInOrder(order: seq<string>, tags: seq<Tag>) returns (picked: seq<Tag>)
    ensures picked == Picked(order, tags)
  {
    picked := [];
    var i := 0;
    while i < |order|
      invariant 0 <= i <= |order|
      invariant picked == Picked(order[..i], tags)
    {
      var first := FirstNamed(tags, order[i]);
      if first.Some? {
        picked := picked + [tags[first.value]];
      }
      assert order[..i + 1][..i] == order[..i];
      i := i + 1;
    }
    assert order[..i] == order;
  }

  /** The second loop of customise: every tag whose name is not in the
   *  order, appended in its original order. */
  method AppendRest(acc: seq<Tag>, tags: seq<Tag>, order: seq<string>) returns (out: seq<Tag>)
    ensures out == acc + Rest(tags, order)
  {
    out := acc;
    var j := 0;
    while j < |tags|
      invariant 0 <= j <= |tags|
      invariant out == acc + Rest(tags[..j], order)
    {
      if tags[j].name !in order {
        out := out + [tags[j]];
      }
      assert tags[..j + 1][..j] == tags[..j];
      j := j + 1;
    }
    assert tags[..j] == tags;
  }
}

/**
 * `TrackerCategoryStore`: the category table. Categories are fetched without
 * a sort, in the order they were stored; a failed fetch yields none.
 * `addOrUpdate` is what keeps category titles distinct.
 */
module TrackerCategoryStore {
  import opened Base
  import opened Entities

  /** No two stored categories carry the same title. */
  predicate DistinctTitles(cs: seq<CategoryEntity>)
  {
    forall i, j :: 0 <= i < j < |cs| && cs[i].title.Some? ==> cs[i].title != cs[j].title
  }

  predicate UniqueOids(cs: seq<CategoryEntity>)
  {
    forall i, j :: 0 <= i < j < |cs| ==> cs[i].oid != cs[j].oid
  }

  /** `find(by:)`: the first category whose title equals the given title. */
  function FindByTitle(cs: seq<CategoryEntity>, title: string): (r: Option<CategoryEntity>)
    ensures r.Some? ==> r.value in cs && r.value.title == Some(title)
    ensures r.None? <==> forall c :: c in cs ==> c.title != Some(title)
    ensures r.Some? ==> exists i :: 0 <= i < |cs| && cs[i] == r.value && forall j :: 0 <= j < i ==> cs[j].title != Some(title)
  {
    if cs == [] then None
    else if cs[0].title == Some(title) then Some(cs[0])
    else
      var rest := FindByTitle(cs[1..], title);
      assert rest.Some? ==> exists i :: 0 <= i < |cs| && cs[i] == rest.value && forall j :: 0 <= j < i ==> cs[j].title != Some(title) by {
        if rest.Some? {
          var k :| 0 <= k < |cs[1..]| && cs[1..][k] == rest.value && forall j :: 0 <= j < k ==> cs[1..][j].title != Some(title);
          assert cs[k + 1] == rest.value;
          forall j | 0 <= j < k + 1 ensures cs[j].title != Some(title) {
            if j > 0 { assert cs[j] == cs[1..][j - 1]; }
          }
        }
      }
      rest
  }

  /** The categories after `update(entity, category)`: the object `oid` takes the new title. */
  function Retitled(cs: seq<CategoryEntity>, oid: nat, title: string): (r: seq<CategoryEntity>)
    ensures |r| == |cs|
    ensures forall i :: 0 <= i < |cs| ==> r[i].oid == cs[i].oid
    ensures forall i :: 0 <= i < |cs| ==> r[i].title == if cs[i].oid == oid then Some(title) else cs[i].title
  {
    seq(|cs|, i requires 0 <= i < |cs| => if cs[i].oid == oid then cs[i].(title := Some(title)) else cs[i])
  }

  /** The categories after `delete(entity)` of the object `oid`, in the same order. */
  function WithoutOid(cs: seq<CategoryEntity>, oid: nat): (r: seq<CategoryEntity>)
    ensures |r| <= |cs|
    ensures forall c :: c in r <==> c in cs && c.oid != oid
  {
    if cs == [] then []
    else if cs[0].oid == oid then WithoutOid(cs[1..], oid)
    else [cs[0]] + WithoutOid(cs[1..], oid)
  }

  /**
   * `addOrUpdate(category, at:)` over categories that could be fetched: nothing
   * when the title is already stored, otherwise a new category `oid` when no
   * index is given, otherwise the category at the index takes the title.
   */
  function AddOrUpdated(cs: seq<CategoryEntity>, title: string, index: Option<nat>, oid: nat): (r: seq<CategoryEntity>)
    requires FindByTitle(cs, title).None? && index.Some? ==> index.value < |cs|
    ensures FindByTitle(cs, title).Some? ==> r == cs
    ensures FindByTitle(cs, title).None? && index.None? ==> r == cs + [CategoryEntity(oid, Some(title))]
    ensures FindByTitle(cs, title).None? && index.Some? ==> r == Retitled(cs, cs[index.value].oid, title)
  {
    if FindByTitle(cs, title).Some? then cs
    else if index.None? then cs + [CategoryEntity(oid, Some(title))]
    else Retitled(cs, cs[index.value].oid, title)
  }

  /** After `addOrUpdate` the title is stored, whichever branch was taken. */
  lemma AddOrUpdateStoresTitle(cs: seq<CategoryEntity>, title: string, index: Option<nat>, oid: nat)
    requires FindByTitle(cs, title).None? && index.Some? ==> index.value < |cs|
    ensures FindByTitle(AddOrUpdated(cs, title, index, oid), title).Some?
  {
    var r := AddOrUpdated(cs, title, index, oid);
    if FindByTitle(cs, title).None? {
      if index.None? {
        assert r[|cs|].title == Some(title);
        assert r[|cs|] in r;
      } else {
        assert r[index.value].title == Some(title);
        assert r[index.value] in r;
      }
    }
  }

  /** A second `addOrUpdate` of the same title changes nothing, at any index. */
  lemma AddOrUpdateIdempotent(cs: seq<CategoryEntity>, title: string, index: Option<nat>, oid: nat, index2: Option<nat>, oid2: nat)
    requires FindByTitle(cs, title).None? && index.Some? ==> index.value < |cs|
    ensures var r := AddOrUpdated(cs, title, index, oid);
      AddOrUpdated(r, title, index2, oid2) == r
  {
    AddOrUpdateStoresTitle(cs, title, index, oid);
  }

  /** Giving any stored category a title no category has keeps titles distinct. */
  lemma RetitledKeepsTitlesDistinct(cs: seq<CategoryEntity>, oid: nat, title: string)
    requires DistinctTitles(cs) && UniqueOids(cs)
    requires FindByTitle(cs, title).None?
    ensures DistinctTitles(Retitled(cs, oid, title))
  {
    var r := Retitled(cs, oid, title);
    forall i, j | 0 <= i < j < |r| && r[i].title.Some? ensures r[i].title != r[j].title {
      assert cs[i] in cs && cs[j] in cs;
      if cs[i].oid == oid {
        assert cs[j].oid != oid;
      }
    }
  }

  /** `addOrUpdate` never makes two categories share a title. */
  lemma AddOrUpdatePreservesDistinctTitles(cs: seq<CategoryEntity>, title: string, index: Option<nat>, oid: nat)
    requires FindByTitle(cs, title).None? && index.Some? ==> index.value < |cs|
    requires DistinctTitles(cs) && UniqueOids(cs)
    ensures DistinctTitles(AddOrUpdated(cs, title, index, oid))
  {
    var r := AddOrUpdated(cs, title, index, oid);
    if FindByTitle(cs, title).None? {
      if index.None? {
        forall i, j | 0 <= i < j < |r| && r[i].title.Some? ensures r[i].title != r[j].title {
          if j == |cs| {
            assert cs[i] in cs;
          }
        }
      } else {
        RetitledKeepsTitlesDistinct(cs, cs[index.value].oid, title);
      }
    }
  }

  /** Deleting a category keeps titles distinct. */
  lemma {:induction false} WithoutOidKeepsTitlesDistinct(cs: seq<CategoryEntity>, oid: nat)
    requires DistinctTitles(cs) && UniqueOids(cs)
    ensures DistinctTitles(WithoutOid(cs, oid)) && UniqueOids(WithoutOid(cs, oid))
    decreases |cs|
  {
    if cs != [] {
      assert DistinctTitles(cs[1..]) && UniqueOids(cs[1..]) by {
        forall i, j | 0 <= i < j < |cs[1..]| ensures cs[1..][i].oid != cs[1..][j].oid {
          assert cs[1..][i] == cs[i + 1] && cs[1..][j] == cs[j + 1];
        }
        forall i, j | 0 <= i < j < |cs[1..]| && cs[1..][i].title.Some? ensures cs[1..][i].title != cs[1..][j].title {
          assert cs[1..][i] == cs[i + 1] && cs[1..][j] == cs[j + 1];
        }
      }
      WithoutOidKeepsTitlesDistinct(cs[1..], oid);
      if cs[0].oid != oid {
        var rest := WithoutOid(cs[1..], oid);
        forall j | 0 <= j < |rest| ensures cs[0].oid != rest[j].oid && (cs[0].title.Some? ==> cs[0].title != rest[j].title) {
          assert rest[j] in rest;
          var k :| 0 <= k < |cs[1..]| && cs[1..][k] == rest[j];
          assert cs[k + 1] == rest[j];
        }
      }
    }
  }

  class TrackerCategoryStore {
    var categories: seq<CategoryEntity>
    /** Whether fetches from the context currently succeed. */
    var readable: bool
    /** The identity the next new object gets. */
    var nextOid: nat

    ghost predicate Valid()
      reads this
    {
      UniqueOids(categories) && forall c :: c in categories ==> c.oid < nextOid
    }

    constructor (categories: seq<CategoryEntity>, readable: bool, nextOid: nat)
      requires UniqueOids(categories) && forall c :: c in categories ==> c.oid < nextOid
      ensures Valid()
      ensures this.categories == categories && this.readable == readable && this.nextOid == nextOid
    {
      this.categories := categories;
      this.readable := readable;
      this.nextOid := nextOid;
    }

    /** `list`: every category, or none when the fetch fails. */
    function List(): (r: seq<CategoryEntity>)
      reads this
      ensures readable ==> r == categories
      ensures !readable ==> r == []
    {
      if readable then categories else []
    }

    /** `count`: 0 when the fetch fails; always the length of `list`. */
    function Count(): (n: nat)
      reads this
      ensures n == |List()|
      ensures !readable ==> n == 0
    {
      if readable then |categories| else 0
    }

    /** `find(at:)`: `list[index]`, which traps outside the list. */
    function FindAt(index: nat): (r: CategoryEntity)
      reads this
      requires index < Count()
      ensures r in categories
    {
      List()[index]
    }

    /** `find(by:)`. */
    function FindBy(title: string): (r: Option<CategoryEntity>)
      reads this
      ensures r.Some? ==> r.value in categories && r.value.title == Some(title)
      ensures r.None? <==> !readable || forall c :: c in categories ==> c.title != Some(title)
      ensures r.Some? ==> exists i :: 0 <= i < |categories| && categories[i] == r.value && forall j :: 0 <= j < i ==> categories[j].title != Some(title)
    {
      FindByTitle(List(), title)
    }

    /** `add`: a new category with the title, stored last. */
    method Add(title: string)
      requires Valid()
      modifies this
      ensures Valid()
      ensures categories == old(categories) + [CategoryEntity(old(nextOid), Some(title))]
      ensures readable == old(readable) && nextOid == old(nextOid) + 1
    {
      categories := categories + [CategoryEntity(nextOid, Some(title))];
      nextOid := nextOid + 1;
    }

    /** `update(entity, category)`. */
    method Update(oid: nat, title: string)
      requires Valid()
      modifies this
      ensures Valid()
      ensures categories == Retitled(old(categories), oid, title)
      ensures readable == old(readable) && nextOid == old(nextOid)
    {
      categories := Retitled(categories, oid, title);
    }

    /** `delete(entity)`. */
    method Delete(oid: nat)
      requires Valid()
      modifies this
      ensures Valid()
      ensures categories == WithoutOid(old(categories), oid)
      ensures readable == old(readable) && nextOid == old(nextOid)
    {
      WithoutOidUnique(categories, oid);
      categories := WithoutOid(categories, oid);
    }

    /** `delete(at:)`: deletes the category `find(at:)` returns. */
    method DeleteAt(index: nat)
      requires Valid()
      requires index < Count()
      modifies this
      ensures Valid()
      ensures categories == WithoutOid(old(categories), old(categories)[index].oid)
      ensures |categories| == |old(categories)| - 1
      ensures readable == old(readable) && nextOid == old(nextOid)
    {
      var c := FindAt(index);
      WithoutOidRemovesOne(categories, index);
      Delete(c.oid);
    }

    /** `addOrUpdate(category, at:)`. When the fetch fails no title is found, so a new category is added. */
    method AddOrUpdate(title: string, index: Option<nat>)
      requires Valid()
      requires FindBy(title).None? && index.Some? ==> index.value < Count()
      modifies this
      ensures Valid()
      ensures readable ==> categories == AddOrUpdated(old(categories), title, index, old(nextOid))
      ensures !readable ==> categories == old(categories) + [CategoryEntity(old(nextOid), Some(title))]
      ensures readable == old(readable)
    {
      if FindBy(title).Some? {
        return;
      }
      if index.None? {
        Add(title);
        return;
      }
      var existing := FindAt(index.value);
      Update(existing.oid, title);
    }
  }

  /** Two tables with the same members find a category with a title together, each a member of both. */
  lemma FindByTitleSameMembers(a: seq<CategoryEntity>, b: seq<CategoryEntity>, title: string)
    requires multiset(a) == multiset(b)
    ensures FindByTitle(a, title).None? <==> FindByTitle(b, title).None?
    ensures FindByTitle(a, title).Some? ==> FindByTitle(a, title).value in b
  {
    assert forall c :: c in a <==> c in multiset(b);
  }

  lemma {:induction false} WithoutOidUnique(cs: seq<CategoryEntity>, oid: nat)
    requires UniqueOids(cs)
    ensures UniqueOids(WithoutOid(cs, oid))
    decreases |cs|
  {
    if cs != [] {
      assert UniqueOids(cs[1..]) by {
        forall i, j | 0 <= i < j < |cs[1..]| ensures cs[1..][i].oid != cs[1..][j].oid {
          assert cs[1..][i] == cs[i + 1] && cs[1..][j] == cs[j + 1];
        }
      }
      WithoutOidUnique(cs[1..], oid);
      if cs[0].oid != oid {
        var rest := WithoutOid(cs[1..], oid);
        forall j | 0 <= j < |rest| ensures cs[0].oid != rest[j].oid {
          assert rest[j] in rest;
          var k :| 0 <= k < |cs[1..]| && cs[1..][k] == rest[j];
          assert cs[k + 1] == rest[j];
        }
      }
    }
  }

  /** With unique identities, deleting the object at an index removes exactly that one. */
  lemma {:induction false} WithoutOidRemovesOne(cs: seq<CategoryEntity>, index: nat)
    requires UniqueOids(cs) && index < |cs|
    ensures |WithoutOid(cs, cs[index].oid)| == |cs| - 1
    decreases |cs|
  {
    var oid := cs[index].oid;
    assert UniqueOids(cs[1..]) by {
      forall i, j | 0 <= i < j < |cs[1..]| ensures cs[1..][i].oid != cs[1..][j].oid {
        assert cs[1..][i] == cs[i + 1] && cs[1..][j] == cs[j + 1];
      }
    }
    if index == 0 {
      WithoutOidNothing(cs[1..], oid);
    } else {
      assert cs[1..][index - 1] == cs[index];
      WithoutOidRemovesOne(cs[1..], index - 1);
    }
  }

  lemma {:induction false} WithoutOidNothing(cs: seq<CategoryEntity>, oid: nat)
    requires forall i :: 0 <= i < |cs| ==> cs[i].oid != oid
    ensures WithoutOid(cs, oid) == cs
    decreases |cs|
  {
    if cs != [] {
      WithoutOidNothing(cs[1..], oid);
      assert cs == [cs[0]] + cs[1..];
    }
  }
}

/** The position a page gets at the end of its siblings. */
module SiblingOrder {
  import opened Orders

  lemma {:induction false} MaximumExists(s: set<int>)
    requires s != {}
    ensures exists m :: m in s && forall y | y in s :: y <= m
    decreases |s|
  {
    var x := Pick(s);
    var rest := s - {x};
    if rest == {} {
      assert s == {x};
    } else {
      MaximumExists(rest);
      var m :| m in rest && forall y | y in rest :: y <= m;
      var top := if x < m then m else x;
      assert top in s && forall y | y in s :: y == x || y in rest;
    }
  }

  /** The position after the last sibling. */
  function NextPosition(positions: set<int>): (next: int)
    ensures forall p | p in positions :: p < next
    ensures if positions == {} then next == 1 else next - 1 in positions
  {
    if positions == {} then 1
    else
      MaximumExists(positions);
      var m :| m in positions && forall y | y in positions :: y <= m;
      m + 1
  }
}

/** The wiki page tree: creating, duplicating, deleting, moving and patching pages, and what
    keeps the parent links a forest. */
module WikiPages {
  import opened Wrappers
  import opened SiblingOrder

  type Id = int

  datatype Page = Page(wiki: Id, parent: Option<Id>, title: string, body: string, position: int, revision: int)

  type Pages = map<Id, Page>

  // --- Parent chains -----------------------------------------------------------------------

  /** The page `n` steps up from `x`, if the chain is that long. */
  function Ancestor(pages: Pages, x: Id, n: nat): Option<Id>
    decreases n
  {
    if n == 0 then Some(x)
    else if x !in pages || pages[x].parent.None? then None
    else Ancestor(pages, pages[x].parent.value, n - 1)
  }

  /** Going up from `x` ends at a root. */
  ghost predicate Rooted(pages: Pages, x: Id) {
    exists n: nat :: Ancestor(pages, x, n) == None
  }

  /** `y` is `x` or one of its ancestors. */
  ghost predicate Reaches(pages: Pages, x: Id, y: Id) {
    exists n: nat :: Ancestor(pages, x, n) == Some(y)
  }

  /** Parents exist (the foreign key). */
  predicate Closed(pages: Pages) {
    forall id | id in pages && pages[id].parent.Some? :: pages[id].parent.value in pages
  }

  ghost predicate Forest(pages: Pages) {
    Closed(pages) && forall id | id in pages :: Rooted(pages, id)
  }

  lemma {:induction false} AncestorAdds(pages: Pages, x: Id, n: nat, m: nat)
    ensures Ancestor(pages, x, n + m)
            == if Ancestor(pages, x, n).None? then None else Ancestor(pages, Ancestor(pages, x, n).value, m)
    decreases n
  {
    if n > 0 && x in pages && pages[x].parent.Some? {
      AncestorAdds(pages, pages[x].parent.value, n - 1, m);
    }
  }

  lemma RootedStep(pages: Pages, x: Id)
    ensures Rooted(pages, x) <==> x !in pages || pages[x].parent.None? || Rooted(pages, pages[x].parent.value)
  {
    if x !in pages || pages[x].parent.None? {
      assert Ancestor(pages, x, 1) == None;
    } else {
      var p := pages[x].parent.value;
      if Rooted(pages, x) {
        var n: nat :| Ancestor(pages, x, n) == None;
        assert Ancestor(pages, p, n - 1) == None;
      }
      if Rooted(pages, p) {
        var n: nat :| Ancestor(pages, p, n) == None;
        assert Ancestor(pages, x, n + 1) == None;
      }
    }
  }

  lemma ReachesStep(pages: Pages, x: Id, y: Id)
    ensures Reaches(pages, x, y) <==>
            x == y || (x in pages && pages[x].parent.Some? && Reaches(pages, pages[x].parent.value, y))
  {
    if Reaches(pages, x, y) {
      var n: nat :| Ancestor(pages, x, n) == Some(y);
      if n > 0 {
        assert Ancestor(pages, pages[x].parent.value, n - 1) == Some(y);
      }
    }
    if x == y {
      assert Ancestor(pages, x, 0) == Some(y);
    } else if x in pages && pages[x].parent.Some? && Reaches(pages, pages[x].parent.value, y) {
      var n: nat :| Ancestor(pages, pages[x].parent.value, n) == Some(y);
      assert Ancestor(pages, x, n + 1) == Some(y);
    }
  }

  /** A page on a cycle has no root above it. */
  lemma {:induction false} CycleHasNoRoot(pages: Pages, x: Id, m: nat, k: nat)
    requires m > 0 && Ancestor(pages, x, m) == Some(x)
    ensures Ancestor(pages, x, k) != None
    decreases k
  {
    if k >= m {
      CycleHasNoRoot(pages, x, m, k - m);
      AncestorAdds(pages, x, m, k - m);
    } else {
      AncestorAdds(pages, x, k, m - k);
    }
  }

  /** In a forest no page is its own proper ancestor. */
  lemma ForestIsAcyclic(pages: Pages, x: Id, m: nat)
    requires Forest(pages) && x in pages && m > 0
    ensures Ancestor(pages, x, m) != Some(x)
  {
    if Ancestor(pages, x, m) == Some(x) {
      var k: nat :| Ancestor(pages, x, k) == None;
      CycleHasNoRoot(pages, x, m, k);
    }
  }

  // --- What each change does to the forest ---------------------------------------------------

  lemma {:induction false} ChainsIgnoreNewLeaf(pages: Pages, id: Id, page: Page, x: Id, n: nat)
    requires Closed(pages) && id !in pages && x in pages
    ensures Ancestor(pages[id := page], x, n) == Ancestor(pages, x, n)
    decreases n
  {
    if n > 0 && pages[x].parent.Some? {
      ChainsIgnoreNewLeaf(pages, id, page, pages[x].parent.value, n - 1);
    }
  }

  /** A new page under an existing parent, or at the top, keeps a forest a forest. */
  lemma NewPageKeepsForest(pages: Pages, id: Id, page: Page)
    requires Forest(pages) && id !in pages
    requires page.parent.Some? ==> page.parent.value in pages
    ensures Forest(pages[id := page])
  {
    var after := pages[id := page];
    forall x | x in pages ensures Rooted(after, x) {
      var n: nat :| Ancestor(pages, x, n) == None;
      ChainsIgnoreNewLeaf(pages, id, page, x, n);
    }
    RootedStep(after, id);
  }

  /** The database's ON DELETE SET NULL. */
  function Deleted(pages: Pages, id: Id): Pages {
    map x | x in pages && x != id ::
      if pages[x].parent == Some(id) then pages[x].(parent := None) else pages[x]
  }

  lemma {:induction false} DeletedStaysRooted(pages: Pages, id: Id, x: Id, n: nat)
    requires Closed(pages) && x in pages && x != id && Ancestor(pages, x, n) == None
    ensures Rooted(Deleted(pages, id), x)
    decreases n
  {
    var after := Deleted(pages, id);
    RootedStep(after, x);
    if after[x].parent.Some? {
      DeletedStaysRooted(pages, id, after[x].parent.value, n - 1);
    }
  }

  /** Deleting a page turns its children into roots and keeps a forest a forest. */
  lemma DeleteKeepsForest(pages: Pages, id: Id)
    requires Forest(pages)
    ensures Forest(Deleted(pages, id))
  {
    forall x | x in Deleted(pages, id) ensures Rooted(Deleted(pages, id), x) {
      var n: nat :| Ancestor(pages, x, n) == None;
      DeletedStaysRooted(pages, id, x, n);
    }
  }

  /** `id` hung under `q`; nothing else about the links changes. */
  predicate Relinked(pages: Pages, after: Pages, id: Id, q: Option<Id>) {
    && after.Keys == pages.Keys && id in pages
    && after[id].parent == q
    && forall x | x in pages && x != id :: after[x].parent == pages[x].parent
  }

  lemma {:induction false} ChainAvoiding(pages: Pages, after: Pages, id: Id, q: Option<Id>, y: Id, n: nat)
    requires Relinked(pages, after, id, q) && !Reaches(pages, y, id)
    ensures Ancestor(after, y, n) == Ancestor(pages, y, n)
    decreases n
  {
    ReachesStep(pages, y, id);
    if n > 0 && y in pages && pages[y].parent.Some? {
      ChainAvoiding(pages, after, id, q, pages[y].parent.value, n - 1);
    }
  }

  lemma {:induction false} RelinkedStaysRooted(pages: Pages, after: Pages, id: Id, q: Option<Id>, x: Id, n: nat)
    requires Relinked(pages, after, id, q) && Rooted(after, id) && Ancestor(pages, x, n) == None
    ensures Rooted(after, x)
    decreases n
  {
    RootedStep(after, x);
    if x != id && x in pages && pages[x].parent.Some? {
      RelinkedStaysRooted(pages, after, id, q, pages[x].parent.value, n - 1);
    }
  }

  lemma {:induction false} ChainUntilHit(pages: Pages, after: Pages, id: Id, q: Option<Id>, y: Id, n: nat)
    requires Relinked(pages, after, id, q) && Ancestor(pages, y, n) == Some(id)
    ensures Reaches(after, y, id)
    decreases n
  {
    ReachesStep(after, y, id);
    if y != id {
      ChainUntilHit(pages, after, id, q, pages[y].parent.value, n - 1);
    }
  }

  /** Hanging a page under another keeps a forest exactly when the new parent is not the page
      itself or one of its descendants. */
  lemma RelinkIff(pages: Pages, after: Pages, id: Id, q: Id)
    requires Forest(pages) && q in pages && Relinked(pages, after, id, Some(q))
    ensures Forest(after) <==> !Reaches(pages, q, id)
  {
    if Reaches(pages, q, id) {
      var n: nat :| Ancestor(pages, q, n) == Some(id);
      ChainUntilHit(pages, after, id, Some(q), q, n);
      var m: nat :| Ancestor(after, q, m) == Some(id);
      assert Ancestor(after, id, m + 1) == Some(id);
      if Forest(after) {
        ForestIsAcyclic(after, id, m + 1);
      }
    } else {
      var n: nat :| Ancestor(pages, q, n) == None;
      ChainAvoiding(pages, after, id, Some(q), q, n);
      RootedStep(after, id);
      forall x | x in after ensures Rooted(after, x) {
        var k: nat :| Ancestor(pages, x, k) == None;
        RelinkedStaysRooted(pages, after, id, Some(q), x, k);
      }
    }
  }

  lemma UnlinkKeepsForest(pages: Pages, after: Pages, id: Id)
    requires Forest(pages) && Relinked(pages, after, id, None)
    ensures Forest(after)
  {
    RootedStep(after, id);
    forall x | x in after ensures Rooted(after, x) {
      var k: nat :| Ancestor(pages, x, k) == None;
      RelinkedStaysRooted(pages, after, id, None, x, k);
    }
  }

  // --- Wikis and parents ---------------------------------------------------------------------------

  /** Every page lies in the wiki of the page above it. */
  predicate SameWikiAsParent(pages: Pages) {
    forall id | id in pages && pages[id].parent.Some? && pages[id].parent.value in pages ::
      pages[id].wiki == pages[pages[id].parent.value].wiki
  }

  predicate HasChildren(pages: Pages, id: Id) {
    exists x | x in pages :: pages[x].parent == Some(id)
  }

  /** Putting a page elsewhere, under a parent of its new wiki, keeps pages in their parents' wikis
      exactly when it stays in its wiki or leaves no children behind. */
  lemma MovedWikiIff(pages: Pages, id: Id, page: Page)
    requires Forest(pages) && SameWikiAsParent(pages) && id in pages
    requires page.parent.Some? ==>
               page.parent.value in pages && page.parent.value != id && pages[page.parent.value].wiki == page.wiki
    ensures SameWikiAsParent(pages[id := page]) <==> page.wiki == pages[id].wiki || !HasChildren(pages, id)
  {
    var after := pages[id := page];
    if x :| x in pages && pages[x].parent == Some(id) {
      if x == id {
        ForestIsAcyclic(pages, id, 1);
      }
      assert after[x] == pages[x] && pages[x].wiki == pages[id].wiki;
    }
  }

  /** Writing a parent without looking keeps pages in their parents' wikis exactly when that parent
      lies in the page's wiki. */
  lemma PatchedWikiIff(pages: Pages, id: Id, page: Page)
    requires SameWikiAsParent(pages) && id in pages && page.wiki == pages[id].wiki
    requires page.parent.Some? ==> page.parent.value in pages
    ensures SameWikiAsParent(pages[id := page]) <==>
            page.parent.None? || pages[page.parent.value].wiki == page.wiki
  {
    var after := pages[id := page];
    assert after[id] == page && forall x | x in pages :: after[x].wiki == pages[x].wiki;
  }

  // --- Positions -------------------------------------------------------------------------------

  function Positions(pages: Pages, wiki: Id, parent: Option<Id>, except: Option<Id>): set<int> {
    set x | x in pages && pages[x].wiki == wiki && pages[x].parent == parent && Some(x) != except :: pages[x].position
  }

  predicate Sibling(pages: Pages, wiki: Id, parent: Option<Id>, except: Option<Id>, x: Id) {
    x in pages && pages[x].wiki == wiki && pages[x].parent == parent && Some(x) != except
  }

  /** The first place behind all siblings; without any it is 1. */
  predicate BehindSiblings(pages: Pages, wiki: Id, parent: Option<Id>, except: Option<Id>, position: int) {
    && (forall x | x in pages && Sibling(pages, wiki, parent, except, x) :: pages[x].position < position)
    && if forall x | x in pages :: !Sibling(pages, wiki, parent, except, x) then position == 1
       else exists x | x in pages :: Sibling(pages, wiki, parent, except, x) && pages[x].position == position - 1
  }

  lemma NextIsBehindSiblings(pages: Pages, wiki: Id, parent: Option<Id>, except: Option<Id>)
    ensures BehindSiblings(pages, wiki, parent, except, NextPosition(Positions(pages, wiki, parent, except)))
  {
    var positions := Positions(pages, wiki, parent, except);
    forall x | x in pages && Sibling(pages, wiki, parent, except, x) ensures pages[x].position in positions {
    }
  }

  // --- The store -----------------------------------------------------------------------------------

  datatype Error =
    | NothingToDo | NotFound | Forbidden | BadParent | OwnParent | WouldCycle | NoDestination | Stale | BrokenReference

  class PageStore {
    var wikis: set<Id>
    var pages: Pages

    constructor (wikis: set<Id>)
      ensures this.wikis == wikis && pages == map[]
    {
      this.wikis, pages := wikis, map[];
    }

    /** Pages live in existing wikis and their links form a forest. */
    ghost predicate Valid()
      reads this
    {
      Forest(pages) && forall id | id in pages :: pages[id].wiki in wikis
    }

    /** The page and whether the caller may edit it; `editable` are the caller's wikis. */
    function Access(id: Id, editable: set<Id>): (denied: Option<Error>)
      reads this
      ensures denied == None <==> id in pages && pages[id].wiki in wikis && pages[id].wiki in editable
      ensures denied == Some(Forbidden) <==> id in pages && pages[id].wiki in wikis && pages[id].wiki !in editable
      ensures denied in {None, Some(Forbidden), Some(NotFound)}
    {
      if id !in pages || pages[id].wiki !in wikis then Some(NotFound)
      else if pages[id].wiki !in editable then Some(Forbidden)
      else None
    }

    method CreatePage(editable: set<Id>, wiki: Id, parent: Option<Id>, title: string, body: string, fresh': Id)
      returns (r: Result<Id, Error>)
      requires Valid() && fresh' !in pages
      modifies this`pages
      ensures Valid()
      ensures old(SameWikiAsParent(pages)) ==> SameWikiAsParent(pages)
      ensures r == if wiki !in wikis then Err(NotFound)
                   else if wiki !in editable then Err(Forbidden)
                   else if parent.Some? && (parent.value !in old(pages) || old(pages)[parent.value].wiki != wiki)
                   then Err(BadParent)
                   else Ok(fresh')
      ensures r.Err? ==> pages == old(pages)
      ensures r.Ok? ==>
        && fresh' in pages && pages == old(pages)[fresh' := pages[fresh']]
        && pages[fresh'] == Page(wiki, parent, if title == "" then "Untitled" else title, body,
                                 pages[fresh'].position, 1)
        && BehindSiblings(old(pages), wiki, parent, None, pages[fresh'].position)
    {
      if wiki !in wikis {
        return Err(NotFound);
      }
      if wiki !in editable {
        return Err(Forbidden);
      }
      if parent.Some? {
        if parent.value !in pages || pages[parent.value].wiki != wiki {
          return Err(BadParent);
        }
      }
      NextIsBehindSiblings(pages, wiki, parent, None);
      var position := NextPosition(Positions(pages, wiki, parent, None));
      var page := Page(wiki, parent, if title == "" then "Untitled" else title, body, position, 1);
      NewPageKeepsForest(pages, fresh', page);
      pages := pages[fresh' := page];
      return Ok(fresh');
    }

    method DuplicatePage(editable: set<Id>, id: Id, fresh': Id) returns (r: Result<Id, Error>)
      requires Valid() && fresh' !in pages
      modifies this`pages
      ensures Valid()
      ensures old(SameWikiAsParent(pages)) ==> SameWikiAsParent(pages)
      ensures r == if old(Access(id, editable)).Some? then Err(old(Access(id, editable)).value) else Ok(fresh')
      ensures r.Err? ==> pages == old(pages)
      ensures r.Ok? ==>
        var src := old(pages)[id];
        && fresh' in pages && pages == old(pages)[fresh' := pages[fresh']]
        && pages[fresh'] == src.(title := src.title + " (copy)", position := pages[fresh'].position, revision := 1)
        && BehindSiblings(old(pages), src.wiki, src.parent, None, pages[fresh'].position)
    {
      var denied := Access(id, editable);
      if denied.Some? {
        return Err(denied.value);
      }
      var src := pages[id];
      NextIsBehindSiblings(pages, src.wiki, src.parent, None);
      var position := NextPosition(Positions(pages, src.wiki, src.parent, None));
      var copy := Page(src.wiki, src.parent, src.title + " (copy)", src.body, position, 1);
      NewPageKeepsForest(pages, fresh', copy);
      pages := pages[fresh' := copy];
      return Ok(fresh');
    }

    method DeletePage(editable: set<Id>, id: Id) returns (r: Result<Id, Error>)
      requires Valid()
      modifies this`pages
      ensures Valid()
      ensures old(SameWikiAsParent(pages)) ==> SameWikiAsParent(pages)
      ensures r == if old(Access(id, editable)).Some? then Err(old(Access(id, editable)).value) else Ok(id)
      ensures r.Err? ==> pages == old(pages)
      ensures r.Ok? ==>
        && pages.Keys == old(pages).Keys - {id}
        && forall x | x in pages ::
             var was := old(pages)[x];
             pages[x] == if was.parent == Some(id) then was.(parent := None) else was
    {
      var denied := Access(id, editable);
      if denied.Some? {
        return Err(denied.value);
      }
      DeleteKeepsForest(pages, id);
      pages := Deleted(pages, id);
      return Ok(id);
    }

    /** The walk from a would-be parent up to its root; it ends because the links are a forest. */
    method IsBelow(parent: Id, id: Id) returns (below: bool)
      requires Forest(pages) && parent in pages && parent != id
      ensures below <==> Reaches(pages, parent, id)
    {
      var cursor := parent;
      ghost var n: nat :| Ancestor(pages, cursor, n) == None;
      while pages[cursor].parent.Some?
        invariant cursor in pages && cursor != id
        invariant Ancestor(pages, cursor, n) == None
        invariant Reaches(pages, cursor, id) <==> Reaches(pages, parent, id)
        decreases n
      {
        ReachesStep(pages, cursor, id);
        if pages[cursor].parent.value == id {
          ReachesStep(pages, id, id);
          return true;
        }
        cursor := pages[cursor].parent.value;
        n := n - 1;
      }
      ReachesStep(pages, cursor, id);
      return false;
    }

    /** Which error a move meets, in the order the checks run. */
    ghost function MoveError(editable: set<Id>, id: Id, target: Option<Id>, newParent: Option<Id>): Option<Error>
      reads this
    {
      if target.None? && newParent.None? then Some(NothingToDo)
      else if Access(id, editable).Some? then Access(id, editable)
      else
        var wiki := if target.Some? then target.value else pages[id].wiki;
        if wiki != pages[id].wiki && wiki !in wikis then Some(NoDestination)
        else if wiki != pages[id].wiki && wiki !in editable then Some(Forbidden)
        else if newParent.None? then None
        else if newParent.value == id then Some(OwnParent)
        else if newParent.value !in pages || pages[newParent.value].wiki != wiki then Some(BadParent)
        else if Reaches(pages, newParent.value, id) then Some(WouldCycle)
        else None
    }

    /** Moves a page to another wiki, under another parent, or both. Exactly the moves that
        would put the page under itself or a descendant are refused as such. */
    method MovePage(editable: set<Id>, id: Id, target: Option<Id>, newParent: Option<Id>) returns (r: Result<Id, Error>)
      requires Valid()
      modifies this`pages
      ensures Valid()
      ensures r == match old(MoveError(editable, id, target, newParent)) case Some(e) => Err(e) case None => Ok(id)
      ensures r.Ok? <==>
        && (target.Some? || newParent.Some?)
           && old(id in pages && pages[id].wiki in wikis && pages[id].wiki in editable)
        && var wiki := if target.Some? then target.value else old(pages)[id].wiki;
           && (wiki == old(pages)[id].wiki || (wiki in wikis && wiki in editable))
           && (newParent.Some? ==>
                 && newParent.value in old(pages) && old(pages)[newParent.value].wiki == wiki
                 && newParent.value != id && !Reaches(old(pages), newParent.value, id))
      ensures r.Err? ==> pages == old(pages)
      ensures r.Ok? ==>
        var was := old(pages)[id];
        var wiki := if target.Some? then target.value else was.wiki;
        var parent := if newParent.Some? then newParent else if wiki != was.wiki then None else was.parent;
        && id in pages
        && pages == old(pages)[id := was.(wiki := wiki, parent := parent, position := pages[id].position)]
        && BehindSiblings(old(pages), wiki, parent, Some(id), pages[id].position)
      ensures r.Ok? && old(SameWikiAsParent(pages)) ==>
        (SameWikiAsParent(pages) <==>
           target.None? || target.value == old(pages)[id].wiki || !old(HasChildren(pages, id)))
    {
      hide BehindSiblings, Positions;
      if target.None? && newParent.None? {
        return Err(NothingToDo);
      }
      var denied := Access(id, editable);
      if denied.Some? {
        return Err(denied.value);
      }
      var page := pages[id];
      if target.Some? && target.value != page.wiki {
        if target.value !in wikis {
          return Err(NoDestination);
        }
        if target.value !in editable {
          return Err(Forbidden);
        }
        page := page.(wiki := target.value, parent := None);
      }
      if newParent.Some? {
        if newParent.value == id {
          return Err(OwnParent);
        }
        if newParent.value !in pages || pages[newParent.value].wiki != page.wiki {
          return Err(BadParent);
        }
        var below := IsBelow(newParent.value, id);
        if below {
          return Err(WouldCycle);
        }
        page := page.(parent := newParent);
      }
      NextIsBehindSiblings(pages, page.wiki, page.parent, Some(id));
      page := page.(position := NextPosition(Positions(pages, page.wiki, page.parent, Some(id))));
      var after := pages[id := page];
      LinkChosen(pages, after, id, page.parent);
      if SameWikiAsParent(pages) {
        if page.parent == Some(id) {
          ForestIsAcyclic(pages, id, 1);
        }
        MovedWikiIff(pages, id, page);
      }
      pages := after;
      return Ok(id);
    }

    lemma LinkChosen(pages: Pages, after: Pages, id: Id, parent: Option<Id>)
      requires Forest(pages) && id in pages && Relinked(pages, after, id, parent)
      requires parent == pages[id].parent || parent == None
               || (parent.value in pages && !Reaches(pages, parent.value, id))
      ensures Forest(after)
    {
      if parent.None? {
        UnlinkKeepsForest(pages, after, id);
      } else if parent == pages[id].parent {
        if Reaches(pages, parent.value, id) {
          var n: nat :| Ancestor(pages, parent.value, n) == Some(id);
          ForestIsAcyclic(pages, id, n + 1);
        }
        RelinkIff(pages, after, id, parent.value);
      } else {
        RelinkIff(pages, after, id, parent.value);
      }
    }

    /** The PATCH handler writes the parent without any check; only the foreign key holds. */
    method UpdatePage(editable: set<Id>, id: Id, revision: int, title: Option<string>, body: Option<string>,
                      parent: Option<Id>)
      returns (r: Result<Id, Error>)
      requires Valid()
      modifies this`pages
      ensures r == if old(Access(id, editable)).Some? then Err(old(Access(id, editable)).value)
                   else if revision != old(pages)[id].revision then Err(Stale)
                   else if parent.Some? && parent.value !in old(pages) then Err(BrokenReference)
                   else Ok(id)
      ensures r.Err? ==> pages == old(pages)
      ensures r.Ok? ==>
        var was := old(pages)[id];
        pages == old(pages)[id := was.(title := if title.Some? then title.value else was.title,
                                       body := if body.Some? then body.value else was.body,
                                       parent := if parent.Some? then parent else was.parent,
                                       revision := was.revision + 1)]
      ensures Valid() <==> r.Err? || parent.None? || !Reaches(old(pages), parent.value, id)
      ensures r.Ok? && old(SameWikiAsParent(pages)) ==>
        (SameWikiAsParent(pages) <==>
           parent.None? || old(pages)[parent.value].wiki == old(pages)[id].wiki)
    {
      var denied := Access(id, editable);
      if denied.Some? {
        return Err(denied.value);
      }
      var page := pages[id];
      if revision != page.revision {
        return Err(Stale);
      }
      if title.Some? {
        page := page.(title := title.value);
      }
      if body.Some? {
        page := page.(body := body.value);
      }
      if parent.Some? {
        page := page.(parent := parent);
      }
      page := page.(revision := page.revision + 1);
      if parent.Some? && parent.value !in pages {
        return Err(BrokenReference);
      }
      var after := pages[id := page];
      if parent.Some? {
        RelinkIff(pages, after, id, parent.value);
      } else {
        LinkChosen(pages, after, id, page.parent);
      }
      if SameWikiAsParent(pages) {
        PatchedWikiIff(pages, id, page);
      }
      pages := after;
      return Ok(id);
    }
  }

  // --- Runs -----------------------------------------------------------------------------------------

  datatype Op =
    | Create(editable: set<Id>, wiki: Id, parent: Option<Id>, title: string, body: string, fresh': Id)
    | Duplicate(editable: set<Id>, id: Id, fresh': Id)
    | Delete(editable: set<Id>, id: Id)
    | Move(editable: set<Id>, id: Id, target: Option<Id>, newParent: Option<Id>)

  /** Any sequence of creations, copies, deletions and moves - across wikis too - keeps the pages
      a forest, so every ancestor walk terminates. An id that is not fresh is not used. */
  method Serve(store: PageStore, ops: seq<Op>)
    requires store.Valid()
    modifies store`pages
    ensures store.Valid()
    ensures forall id, m: nat | id in store.pages && m > 0 :: Ancestor(store.pages, id, m) != Some(id)
    ensures old(SameWikiAsParent(store.pages)) && (forall i | 0 <= i < |ops| && ops[i].Move? :: ops[i].target.None?) ==>
              SameWikiAsParent(store.pages)
  {
    for i := 0 to |ops|
      invariant store.Valid()
      invariant old(SameWikiAsParent(store.pages)) && (forall k | 0 <= k < i && ops[k].Move? :: ops[k].target.None?) ==>
          SameWikiAsParent(store.pages)
    {
      var r;
      match ops[i]
      case Create(editable, wiki, parent, title, body, fresh') =>
        if fresh' !in store.pages {
          r := store.CreatePage(editable, wiki, parent, title, body, fresh');
        }
      case Duplicate(editable, id, fresh') =>
        if fresh' !in store.pages {
          r := store.DuplicatePage(editable, id, fresh');
        }
      case Delete(editable, id) =>
        r := store.DeletePage(editable, id);
      case Move(editable, id, target, newParent) =>
        r := store.MovePage(editable, id, target, newParent);
    }
    forall id, m: nat | id in store.pages && m > 0 ensures Ancestor(store.pages, id, m) != Some(id) {
      ForestIsAcyclic(store.pages, id, m);
    }
  }

  // --- What does not hold --------------------------------------------------------------------------

  /** Patching a page's parent can close a cycle; an ancestor walk from it would then go on
      forever. */
  lemma PatchCanMakeACycle()
    ensures exists pages: Pages, after: Pages, id, q ::
              && Forest(pages) && q in pages && Relinked(pages, after, id, Some(q)) && !Forest(after)
              && forall n: nat :: Ancestor(after, id, n) != None
  {
    var a := Page(0, None, "a", "", 1, 1);
    var b := Page(0, Some(1), "b", "", 1, 1);
    var pages: Pages := map[1 := a, 2 := b];
    var after := pages[1 := a.(parent := Some(2))];
    RootedStep(pages, 1);
    RootedStep(pages, 2);
    assert Forest(pages);
    assert Relinked(pages, after, 1, Some(2));
    ReachesStep(pages, 2, 1);
    ReachesStep(pages, 1, 1);
    RelinkIff(pages, after, 1, 2);
    assert Ancestor(after, 2, 1) == Some(1);
    assert Ancestor(after, 1, 2) == Some(1);
    forall n: nat ensures Ancestor(after, 1, n) != None {
      CycleHasNoRoot(after, 1, 2, n);
    }
  }

  /** Moving a page to another wiki leaves its children behind: sharing the parent's wiki is no
      invariant. */
  lemma MoveCanSplitWikis()
    ensures exists pages: Pages, id, wiki :: id in pages && Forest(pages) && SameWikiAsParent(pages)
              && !SameWikiAsParent(pages[id := pages[id].(wiki := wiki, parent := None)])
  {
    var a := Page(0, None, "a", "", 1, 1);
    var b := Page(0, Some(1), "b", "", 1, 1);
    var pages: Pages := map[1 := a, 2 := b];
    RootedStep(pages, 1);
    RootedStep(pages, 2);
    assert Forest(pages);
    assert SameWikiAsParent(pages);
    var after := pages[1 := pages[1].(wiki := 7, parent := None)];
    assert after[2].parent == Some(1) && after[2].wiki != after[1].wiki;
    assert !SameWikiAsParent(after);
  }
}

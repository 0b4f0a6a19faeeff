/**
 * The portfolio store (Utils/FileStorageManager.cs): an in-memory list of
 * portfolios backed by one JSON file. The file is modelled by what it
 * deserialises to; reading and writing it are assignments to `file`.
 */
module Storage {
  import opened Models

  /** The portfolios file: absent, a document that deserialises to `null`, or a list of portfolios. */
  datatype StoredFile = Absent | NullDocument | Document(portfolios: seq<Portfolio>)

  /** The portfolio returned when nothing is stored. */
  const DefaultPortfolio := Portfolio(1, [])

  /** The position of the first portfolio whose id is `id`; `|ps|` when there is none. */
  function FirstWithId(ps: seq<Portfolio>, id: int): (i: nat)
    ensures i <= |ps|
    ensures i < |ps| ==> ps[i].id == id
    ensures forall k :: 0 <= k < i ==> ps[k].id != id
    decreases |ps|
  {
    if |ps| == 0 then 0
    else if ps[0].id == id then 0
    else 1 + FirstWithId(ps[1..], id)
  }

  /** `ps` without its first portfolio whose id is `id`; `ps` itself when there is none. */
  function RemoveFirst(ps: seq<Portfolio>, id: int): seq<Portfolio> {
    var i := FirstWithId(ps, id);
    if i < |ps| then ps[..i] + ps[i + 1..] else ps
  }

  /** The cache `_getAllAsync` leaves behind, given the cache before and the file. */
  function Reloaded(cache: seq<Portfolio>, file: StoredFile): seq<Portfolio> {
    if file.Document? then file.portfolios else cache
  }

  /** The portfolio `GetPortfolioAsync` returns for a cache and a file. */
  function CurrentPortfolio(cache: seq<Portfolio>, file: StoredFile): (p: Portfolio)
    ensures cache != [] ==> p == cache[|cache| - 1]
    ensures cache == [] && file.Document? && file.portfolios != [] ==> p == file.portfolios[|file.portfolios| - 1]
    ensures cache == [] && !(file.Document? && file.portfolios != []) ==> p == DefaultPortfolio
  {
    var ps := if cache == [] then Reloaded(cache, file) else cache;
    if ps == [] then DefaultPortfolio else ps[|ps| - 1]
  }

  /** Deleting the id of a portfolio just added, when no earlier portfolio had that id, restores the list. */
  lemma DeleteUndoesAdd(ps: seq<Portfolio>, p: Portfolio)
    requires forall k :: 0 <= k < |ps| ==> ps[k].id != p.id
    ensures RemoveFirst(ps + [p], p.id) == ps
  {
    var i := FirstWithId(ps + [p], p.id);
    assert (ps + [p])[|ps|] == p;
    assert (ps + [p])[..i] == ps;
  }

  /** Deleting takes out exactly one portfolio carrying the id, and nothing when none carries it; the rest keep their order. */
  lemma DeleteRemovesOne(ps: seq<Portfolio>, id: int)
    ensures (forall k :: 0 <= k < |ps| ==> ps[k].id != id) <==> RemoveFirst(ps, id) == ps
    ensures (exists k :: 0 <= k < |ps| && ps[k].id == id) ==>
              exists i :: 0 <= i < |ps| && ps[i].id == id &&
                          RemoveFirst(ps, id) == ps[..i] + ps[i + 1..] &&
                          multiset(RemoveFirst(ps, id)) + multiset{ps[i]} == multiset(ps)
  {
    var i := FirstWithId(ps, id);
    if i < |ps| {
      assert ps == ps[..i] + [ps[i]] + ps[i + 1..];
      assert |RemoveFirst(ps, id)| < |ps|;
    }
  }

  /** The store: the `_portfolios` cache and the file behind it. */
  class FileStorageManager {
    var portfolios: seq<Portfolio>
    var file: StoredFile

    constructor (file: StoredFile)
      ensures portfolios == [] && this.file == file
    {
      portfolios := [];
      this.file := file;
    }

    /** Appends to the cache only. */
    method Add(p: Portfolio)
      modifies this
      ensures portfolios == old(portfolios) + [p]
      ensures file == old(file)
    {
      portfolios := portfolios + [p];
    }

    /** Removes the first cached portfolio with the id, if any. */
    method Delete(id: int)
      modifies this
      ensures portfolios == RemoveFirst(old(portfolios), id)
      ensures file == old(file)
    {
      portfolios := RemoveFirst(portfolios, id);
    }

    /** Reads the file: a list replaces the cache and is returned; a null document returns the cache; no file returns a fresh empty list. */
    method GetAll() returns (r: seq<Portfolio>)
      modifies this
      ensures portfolios == Reloaded(old(portfolios), file)
      ensures r == (if file.Absent? then [] else portfolios)
      ensures file == old(file)
    {
      match file
      case Absent =>
        r := [];
      case NullDocument =>
        r := portfolios;
      case Document(ps) =>
        portfolios := ps;
        r := portfolios;
    }

    /** The last cached portfolio, reloading the cache from the file first when it is empty. */
    method GetPortfolio() returns (p: Portfolio)
      modifies this
      ensures p == CurrentPortfolio(old(portfolios), old(file))
      ensures portfolios == (if old(portfolios) == [] then Reloaded([], file) else old(portfolios))
      ensures file == old(file)
    {
      if |portfolios| == 0 {
        portfolios := GetAll();
      }
      if |portfolios| == 0 {
        return DefaultPortfolio;
      }
      p := portfolios[|portfolios| - 1];
    }

    /** Writes the list to the file; the cache is left as it is. */
    method Save(ps: seq<Portfolio>)
      modifies this
      ensures file == Document(ps)
      ensures portfolios == old(portfolios)
    {
      file := Document(ps);
    }
  }
}

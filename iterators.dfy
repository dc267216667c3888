/**
 * mangadex/iterators.py: `MangaIterator`, which pages through a manga search.
 *
 * The search request is an oracle `server(limit, offset)` giving the items of
 * one page; the other search arguments are fixed for the iterator's lifetime
 * and are part of the oracle. Items are kept as the server returned them (the
 * `Manga` wrapper is not modelled).
 */
module Iterators {
  import opened Wrappers
  import opened Python

  /** The most items one request asks for. */
  const PageSize: int := 100

  /** `self._limit if self._limit <= 100 else 100` */
  function Chunk(limit: int): (c: int)
    requires limit > 0
    ensures 1 <= c <= PageSize && c <= limit
    ensures c == limit || c == PageSize
  {
    if limit <= PageSize then limit else PageSize
  }

  /** Everything iteration yields once the queue is empty: pages are requested while items are
      still owed, and the first empty page ends iteration. */
  function Drain(limit: int, offset: int, server: (int, int) -> seq<PyValue>): seq<PyValue>
    decreases if limit > 0 then limit else 0
  {
    if limit <= 0 then []
    else
      var chunk := Chunk(limit);
      var data := server(chunk, offset);
      if data == [] then [] else data + Drain(limit - chunk, offset + chunk, server)
  }

  /** A server that never returns more than it was asked for. */
  ghost predicate HonoursLimit(server: (int, int) -> seq<PyValue>) {
    forall l, o :: |server(l, o)| <= l
  }

  /** Such a server can never make the iterator yield more than the requested limit. */
  lemma {:induction false} DrainBounded(limit: int, offset: int, server: (int, int) -> seq<PyValue>)
    requires HonoursLimit(server)
    ensures |Drain(limit, offset, server)| <= if limit > 0 then limit else 0
    decreases if limit > 0 then limit else 0
  {
    if limit > 0 {
      var chunk := Chunk(limit);
      assert |server(chunk, offset)| <= chunk;
      DrainBounded(limit - chunk, offset + chunk, server);
    }
  }

  /** The pages are requested at consecutive offsets: after a full page of `c` items the next
      request starts `c` further on, whatever the server returned. */
  lemma DrainNextPage(limit: int, offset: int, server: (int, int) -> seq<PyValue>)
    requires limit > 0 && server(Chunk(limit), offset) != []
    ensures Drain(limit, offset, server) ==
              server(Chunk(limit), offset) + Drain(limit - Chunk(limit), offset + Chunk(limit), server)
  {
  }

  /** A server with `total` items in one list, serving the slice each request asks for. */
  function Slicing(items: seq<PyValue>): (int, int) -> seq<PyValue> {
    (l: int, o: int) =>
      if 0 <= o <= |items| && 0 <= l then items[o..if o + l <= |items| then o + l else |items|] else []
  }

  /** What the slicing server returns for one request within the list. */
  lemma SliceServed(items: seq<PyValue>, chunk: int, offset: nat)
    requires offset <= |items| && chunk > 0
    ensures Slicing(items)(chunk, offset) == items[offset..if offset + chunk <= |items| then offset + chunk else |items|]
  {
  }

  /** Against a server that slices one list, iteration from offset `o` with limit `n` yields
      exactly the `n` items from `o` on (fewer when the list runs out). */
  lemma {:induction false} DrainSlicing(items: seq<PyValue>, limit: int, offset: nat)
    requires offset <= |items|
    ensures Drain(limit, offset, Slicing(items)) ==
              if limit <= 0 then [] else items[offset..if offset + limit <= |items| then offset + limit else |items|]
    decreases if limit > 0 then limit else 0
  {
    if limit > 0 {
      var server := Slicing(items);
      var chunk := Chunk(limit);
      var stop := if offset + chunk <= |items| then offset + chunk else |items|;
      var end := if offset + limit <= |items| then offset + limit else |items|;
      SliceServed(items, chunk, offset);
      if offset < |items| {
        DrainNextPage(limit, offset, server);
        if limit - chunk <= 0 {
          assert stop == end;
        } else if offset + chunk <= |items| {
          DrainSlicing(items, limit - chunk, offset + chunk);
          assert items[offset..end] == items[offset..stop] + items[stop..end];
        } else {
          DrainPast(items, limit - chunk, offset + chunk);
          assert stop == end;
        }
      }
    }
  }

  /** Past the end of the list the slicing server returns nothing. */
  lemma DrainPast(items: seq<PyValue>, limit: int, offset: int)
    requires offset > |items| && limit > 0
    ensures Drain(limit, offset, Slicing(items)) == []
  {
  }

  class MangaIterator {
    var limit: int
    var offset: int
    var queue: seq<PyValue>

    /** `MangaIterator(limit=..., http=...)` */
    constructor (limit: int)
      ensures this.limit == limit && offset == 0 && queue == []
    {
      this.limit := limit;
      offset := 0;
      queue := [];
    }

    /** `_fill_data`: with items still owed, request one page at the current offset; a non-empty
        page is queued and moves `limit` down and `offset` up by the page size asked for. Returns
        the request made, if any. */
    method FillData(server: (int, int) -> seq<PyValue>) returns (request: Option<(int, int)>)
      modifies this
      ensures old(limit) <= 0 ==> request.None? && limit == old(limit) && offset == old(offset) && queue == old(queue)
      ensures old(limit) > 0 ==> request == Some((Chunk(old(limit)), old(offset)))
      ensures old(limit) > 0 && server(Chunk(old(limit)), old(offset)) == [] ==>
                limit == old(limit) && offset == old(offset) && queue == old(queue)
      ensures old(limit) > 0 && server(Chunk(old(limit)), old(offset)) != [] ==>
                && limit == old(limit) - Chunk(old(limit)) && offset == old(offset) + Chunk(old(limit))
                && queue == old(queue) + server(Chunk(old(limit)), old(offset))
      ensures limit + offset == old(limit + offset)
    {
      if limit <= 0 {
        return None;
      }
      var chunk := if limit <= PageSize then limit else PageSize;
      request := Some((chunk, offset));
      var data := server(chunk, offset);
      if data != [] {
        limit := limit - chunk;
        offset := offset + chunk;
        var i := 0;
        while i < |data|
          invariant 0 <= i <= |data|
          invariant queue == old(queue) + data[..i]
          invariant limit == old(limit) - chunk && offset == old(offset) + chunk
        {
          queue := queue + [data[i]];
          i := i + 1;
        }
        assert data[..|data|] == data;
      }
    }

    /** `__anext__`: refill only when the queue is empty, then take the head; `None` stands for
        `StopAsyncIteration`. */
    method Next(server: (int, int) -> seq<PyValue>) returns (item: Option<PyValue>)
      modifies this
      ensures old(queue) != [] ==> item == Some(old(queue)[0]) && queue == old(queue)[1..]
                                   && limit == old(limit) && offset == old(offset)
      ensures old(queue) == [] && (old(limit) <= 0 || server(Chunk(old(limit)), old(offset)) == []) ==>
                item.None? && queue == [] && limit == old(limit) && offset == old(offset)
      ensures old(queue) == [] && old(limit) > 0 && server(Chunk(old(limit)), old(offset)) != [] ==>
                && var data := server(Chunk(old(limit)), old(offset));
                && item == Some(data[0]) && queue == data[1..]
                && limit == old(limit) - Chunk(old(limit)) && offset == old(offset) + Chunk(old(limit))
      ensures limit + offset == old(limit + offset)
    {
      if queue == [] {
        var _ := FillData(server);
      }
      if queue == [] {
        return None;
      }
      item := Some(queue[0]);
      queue := queue[1..];
    }

    /** `flatten`: everything still queued, then every page `Drain` describes, in order; the
        queue ends empty and `limit + offset` is kept. */
    method Flatten(server: (int, int) -> seq<PyValue>) returns (mangas: seq<PyValue>)
      modifies this
      ensures mangas == old(queue) + Drain(old(limit), old(offset), server)
      ensures queue == [] && limit + offset == old(limit + offset)
    {
      mangas := [];
      while true
        invariant old(queue) + Drain(old(limit), old(offset), server) == mangas + queue + Drain(limit, offset, server)
        invariant limit + offset == old(limit + offset)
        decreases if limit > 0 then limit else 0, |queue|
      {
        ghost var (l0, o0, q0) := (limit, offset, queue);
        var item := Next(server);
        if item.None? {
          assert q0 == [] && Drain(l0, o0, server) == [];
          return;
        }
        mangas := mangas + [item.value];
        if q0 == [] {
          assert Drain(l0, o0, server) == server(Chunk(l0), o0) + Drain(limit, offset, server);
        }
      }
    }
  }
}

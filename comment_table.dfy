/** The local `comments` table and the per-event aggregates over comments: the
    count and mean rating that both the SQL AVG/COUNT queries and the event's
    stored rating fields are meant to report. */
module CommentTable {
  import opened Common
  import opened Seqs
  import opened Model

  predicate KeyedById(rows: map<string, Comment>) {
    forall k :: k in rows ==> rows[k].id == k
  }

  function Fecha(c: Comment): int {
    c.fecha
  }

  function Rating(c: Comment): int {
    c.calificacion
  }

  /** WHERE eventoId = :eventoId */
  function ForEvento(eventoId: string): Comment -> bool {
    (c: Comment) => c.eventoId == eventoId
  }

  /** A comment's contribution to its event's comment count. */
  function Hit(eventoId: string): Comment -> int {
    (c: Comment) => if c.eventoId == eventoId then 1 else 0
  }

  /** A comment's contribution to its event's rating sum. */
  function Stars(eventoId: string): Comment -> int {
    (c: Comment) => if c.eventoId == eventoId then c.calificacion else 0
  }

  /** The number of stored comments on an event, independent of storage order. */
  ghost function CountFor(m: map<string, Comment>, eventoId: string): int {
    SumOver(m, m.Keys, Hit(eventoId))
  }

  /** The sum of the ratings of the stored comments on an event. */
  ghost function SumFor(m: map<string, Comment>, eventoId: string): int {
    SumOver(m, m.Keys, Stars(eventoId))
  }

  /** The mean rating of an event's comments, None when it has none. */
  ghost function MeanFor(m: map<string, Comment>, eventoId: string): Option<real> {
    if CountFor(m, eventoId) == 0 then None
    else Some(SumFor(m, eventoId) as real / CountFor(m, eventoId) as real)
  }

  /** `average()` of the ratings of a list of comments; None for an empty list. */
  function Average(cs: seq<Comment>): (r: Option<real>)
    ensures r.None? <==> cs == []
  {
    if cs == [] then None else Some(SumSeq(cs, Rating) as real / |cs| as real)
  }

  /** Counting the comments an event filter keeps is summing their hits. */
  lemma {:induction false} FilterCount(vs: seq<Comment>, eventoId: string)
    ensures |Filter(vs, ForEvento(eventoId))| == SumSeq(vs, Hit(eventoId))
  {
    if vs != [] {
      FilterCount(vs[1..], eventoId);
    }
  }

  /** Summing the ratings an event filter keeps is summing the event's stars. */
  lemma {:induction false} FilterSum(vs: seq<Comment>, eventoId: string)
    ensures SumSeq(Filter(vs, ForEvento(eventoId)), Rating) == SumSeq(vs, Stars(eventoId))
  {
    if vs != [] {
      FilterSum(vs[1..], eventoId);
      var f := Filter(vs, ForEvento(eventoId));
      if vs[0].eventoId == eventoId {
        assert f[1..] == Filter(vs[1..], ForEvento(eventoId));
      }
    }
  }

  /** Filtering a scan of the table gives the order-free count and mean. */
  lemma ScanAggregates(m: map<string, Comment>, ks: seq<string>, eventoId: string)
    requires Distinct(ks) && forall k :: k in ks <==> k in m
    ensures |Filter(ValuesAlong(m, ks), ForEvento(eventoId))| == CountFor(m, eventoId)
    ensures Average(Filter(ValuesAlong(m, ks), ForEvento(eventoId))) == MeanFor(m, eventoId)
  {
    var vs := ValuesAlong(m, ks);
    assert (set k | k in ks) == m.Keys;
    FilterCount(vs, eventoId);
    FilterSum(vs, eventoId);
    SumAlongKeys(m, ks, Hit(eventoId));
    SumAlongKeys(m, ks, Stars(eventoId));
  }

  /** A new comment on the event adds one to its count and its rating to its sum. */
  lemma CountForAdd(m: map<string, Comment>, c: Comment, eventoId: string)
    requires c.id !in m && c.eventoId == eventoId
    ensures CountFor(m[c.id := c], eventoId) == CountFor(m, eventoId) + 1
    ensures SumFor(m[c.id := c], eventoId) == SumFor(m, eventoId) + c.calificacion
  {
    SumOverAdd(m, c.id, c, Hit(eventoId));
    SumOverAdd(m, c.id, c, Stars(eventoId));
    assert m[c.id := c].Keys == m.Keys + {c.id};
  }

  /** A comment count is never negative. */
  lemma CountForNonNegative(m: map<string, Comment>, eventoId: string)
    ensures CountFor(m, eventoId) >= 0
  {
    SumOverNonNegative(m, m.Keys, Hit(eventoId));
  }

  /** An event with a stored comment has a count of at least one and a mean rating. */
  lemma CountForPresent(m: map<string, Comment>, k: string, eventoId: string)
    requires k in m && m[k].eventoId == eventoId
    ensures CountFor(m, eventoId) >= 1 && MeanFor(m, eventoId).Some?
  {
    var rest := m - {k};
    assert m == rest[k := m[k]];
    assert rest.Keys + {k} == m.Keys;
    SumOverRemove(m, m.Keys, Hit(eventoId), k);
    SumOverNonNegative(m, m.Keys - {k}, Hit(eventoId));
  }

  /** When every comment on the event carries one to five stars, its rating sum lies
      between one and five times its count. */
  lemma {:induction false} StarSumBounds(m: map<string, Comment>, ks: set<string>, eventoId: string)
    requires ks <= m.Keys
    requires forall k :: k in ks && m[k].eventoId == eventoId ==> IsStarRating(m[k].calificacion)
    ensures SumOver(m, ks, Hit(eventoId)) <= SumOver(m, ks, Stars(eventoId)) <= 5 * SumOver(m, ks, Hit(eventoId))
    decreases |ks|
  {
    if ks != {} {
      var k :| k in ks;
      SumOverRemove(m, ks, Hit(eventoId), k);
      SumOverRemove(m, ks, Stars(eventoId), k);
      StarSumBounds(m, ks - {k}, eventoId);
    }
  }

  /** Star ratings keep an event's mean rating between one and five. */
  lemma MeanWithinStars(m: map<string, Comment>, eventoId: string)
    requires forall k :: k in m && m[k].eventoId == eventoId ==> IsStarRating(m[k].calificacion)
    ensures MeanFor(m, eventoId).Some? ==> 1.0 <= MeanFor(m, eventoId).value <= 5.0
  {
    StarSumBounds(m, m.Keys, eventoId);
    var n, s := CountFor(m, eventoId), SumFor(m, eventoId);
    if n != 0 {
      CountForNonNegative(m, eventoId);
      RatioBounds(s as real, n as real);
    }
  }

  lemma RatioBounds(s: real, n: real)
    requires 0.0 < n <= s <= 5.0 * n
    ensures 1.0 <= s / n <= 5.0
  {
    var q := s / n;
    assert q * n == s;
  }

  /** An event with no stored comments has count zero. */
  lemma CountForNone(m: map<string, Comment>, eventoId: string)
    requires forall k :: k in m ==> m[k].eventoId != eventoId
    ensures CountFor(m, eventoId) == 0 && SumFor(m, eventoId) == 0
  {
    SumOverZeros(m, m.Keys, Hit(eventoId));
    SumOverZeros(m, m.Keys, Stars(eventoId));
  }

  function Upsert(rows: map<string, Comment>, c: Comment): (r: map<string, Comment>)
    ensures c.id in r && r[c.id] == c
    ensures forall k :: k != c.id ==> (k in r <==> k in rows)
    ensures forall k :: k != c.id && k in rows ==> r[k] == rows[k]
    ensures KeyedById(rows) ==> KeyedById(r)
  {
    rows[c.id := c]
  }

  function Ids(cs: seq<Comment>): set<string> {
    set c | c in cs :: c.id
  }

  function UpsertAll(rows: map<string, Comment>, cs: seq<Comment>): (r: map<string, Comment>)
    ensures r.Keys == rows.Keys + Ids(cs)
    ensures forall k :: k in rows && k !in Ids(cs) ==> r[k] == rows[k]
    ensures KeyedById(rows) ==> KeyedById(r)
  {
    if cs == [] then rows
    else
      var init := cs[..|cs| - 1];
      assert cs == init + [cs[|cs| - 1]];
      assert Ids(cs) == Ids(init) + {cs[|cs| - 1].id};
      Upsert(UpsertAll(rows, init), cs[|cs| - 1])
  }

  function UpdateRow(rows: map<string, Comment>, c: Comment): (r: map<string, Comment>)
    ensures forall k :: k in r <==> k in rows
    ensures c.id in rows ==> r[c.id] == c
    ensures forall k :: k != c.id && k in rows ==> r[k] == rows[k]
    ensures KeyedById(rows) ==> KeyedById(r)
  {
    if c.id in rows then rows[c.id := c] else rows
  }

  function DeleteRow(rows: map<string, Comment>, id: string): (r: map<string, Comment>)
    ensures id !in r
    ensures forall k :: k != id ==> (k in r <==> k in rows)
    ensures forall k :: k in r ==> r[k] == rows[k]
    ensures KeyedById(rows) ==> KeyedById(r)
  {
    rows - {id}
  }

  /** DELETE FROM comments WHERE eventoId = :eventoId */
  function DeleteForEvento(rows: map<string, Comment>, eventoId: string): (r: map<string, Comment>)
    ensures forall k :: k in r <==> k in rows && rows[k].eventoId != eventoId
    ensures forall k :: k in r ==> r[k] == rows[k]
    ensures KeyedById(rows) ==> KeyedById(r)
  {
    map k | k in rows && rows[k].eventoId != eventoId :: rows[k]
  }

  /** After the cascade the event has no comments left, so nothing to count. */
  lemma DeleteForEventoCount(rows: map<string, Comment>, eventoId: string)
    ensures CountFor(DeleteForEvento(rows, eventoId), eventoId) == 0
    ensures MeanFor(DeleteForEvento(rows, eventoId), eventoId) == None
  {
    CountForNone(DeleteForEvento(rows, eventoId), eventoId);
  }

  /** SELECT * FROM comments WHERE eventoId = :eventoId ORDER BY fecha DESC */
  function RowsByEvento(rows: seq<Comment>, eventoId: string): (r: seq<Comment>)
    ensures SortedBy(r, Fecha, false)
    ensures multiset(r) <= multiset(rows)
    ensures forall c :: c in r <==> c in rows && c.eventoId == eventoId
  {
    SortBy(Filter(rows, ForEvento(eventoId)), Fecha, false)
  }

  /** SELECT * FROM comments WHERE userId = :userId ORDER BY fecha DESC */
  function RowsByUser(rows: seq<Comment>, userId: string): (r: seq<Comment>)
    ensures SortedBy(r, Fecha, false)
    ensures multiset(r) <= multiset(rows)
    ensures forall c :: c in r <==> c in rows && c.userId == userId
  {
    SortBy(Filter(rows, (c: Comment) => c.userId == userId), Fecha, false)
  }

  /** The Room-generated implementation of CommentDao over the comments table. */
  class CommentDao {
    var rows: map<string, Comment>

    predicate Valid()
      reads this
    {
      KeyedById(rows)
    }

    constructor()
      ensures rows == map[] && Valid()
    {
      rows := map[];
    }

    method InsertComment(c: Comment)
      modifies this
      ensures rows == Upsert(old(rows), c)
      ensures old(Valid()) ==> Valid()
    {
      rows := rows[c.id := c];
    }

    method InsertComments(cs: seq<Comment>)
      modifies this
      ensures rows == UpsertAll(old(rows), cs)
      ensures old(Valid()) ==> Valid()
    {
      for i := 0 to |cs|
        invariant rows == UpsertAll(old(rows), cs[..i])
      {
        assert cs[..i + 1][..i] == cs[..i];
        InsertComment(cs[i]);
      }
      assert cs[..|cs|] == cs;
    }

    method UpdateComment(c: Comment)
      modifies this
      ensures rows == UpdateRow(old(rows), c)
      ensures old(Valid()) ==> Valid()
    {
      if c.id in rows {
        rows := rows[c.id := c];
      }
    }

    method DeleteComment(c: Comment)
      modifies this
      ensures rows == DeleteRow(old(rows), c.id)
      ensures old(Valid()) ==> Valid()
    {
      rows := rows - {c.id};
    }

    method DeleteCommentById(id: string)
      modifies this
      ensures rows == DeleteRow(old(rows), id)
      ensures old(Valid()) ==> Valid()
    {
      rows := rows - {id};
    }

    method DeleteCommentsByEvento(eventoId: string)
      modifies this
      ensures rows == DeleteForEvento(old(rows), eventoId)
      ensures old(Valid()) ==> Valid()
    {
      rows := map k | k in rows && rows[k].eventoId != eventoId :: rows[k];
    }

    method DeleteAllComments()
      modifies this
      ensures rows == map[]
      ensures old(Valid()) ==> Valid()
    {
      rows := map[];
    }

    method Scan() returns (vs: seq<Comment>, ks: seq<string>)
      ensures Distinct(ks) && (forall k :: k in ks <==> k in rows)
      ensures vs == ValuesAlong(rows, ks)
      ensures forall c :: c in vs <==> c in rows.Values
    {
      ks := KeysOf(rows);
      vs := ValuesAlong(rows, ks);
      ValuesAlongCovers(rows, ks);
    }

    method GetCommentsByEvento(eventoId: string) returns (r: seq<Comment>)
      ensures SortedBy(r, Fecha, false)
      ensures forall c :: c in r <==> c in rows.Values && c.eventoId == eventoId
      ensures |r| == CountFor(rows, eventoId)
    {
      var vs, ks := Scan();
      r := RowsByEvento(vs, eventoId);
      ScanAggregates(rows, ks, eventoId);
      assert |multiset(r)| == |multiset(Filter(vs, ForEvento(eventoId)))|;
    }

    method GetCommentsByUser(userId: string) returns (r: seq<Comment>)
      ensures SortedBy(r, Fecha, false)
      ensures forall c :: c in r <==> c in rows.Values && c.userId == userId
    {
      var vs, ks := Scan();
      r := RowsByUser(vs, userId);
    }

    /** SELECT AVG(calificacion): NULL when the event has no comments. */
    method GetCalificacionPromedio(eventoId: string) returns (r: Option<real>)
      ensures r == MeanFor(rows, eventoId)
    {
      var vs, ks := Scan();
      r := Average(Filter(vs, ForEvento(eventoId)));
      ScanAggregates(rows, ks, eventoId);
    }

    /** SELECT COUNT(*) */
    method GetTotalComentarios(eventoId: string) returns (r: int)
      ensures r == CountFor(rows, eventoId)
    {
      var vs, ks := Scan();
      r := |Filter(vs, ForEvento(eventoId))|;
      ScanAggregates(rows, ks, eventoId);
    }
  }
}

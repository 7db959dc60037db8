/** The batch builder: the `listings.forEach` loop that pushes twelve bound
    values and one placeholder group per listing, and how the database binds
    the resulting multi-row `INSERT` back to rows. */
module Batch {
  import opened Wrappers
  import opened Feed
  import opened Mapping

  /** A bound parameter as the database driver receives it: `null` (for
      `null` and `undefined`), a string, a number, or an object (an attributed
      title or listing id is passed on as the object it is). */
  datatype Param =
    | Null
    | TextParam(t: string)
    | Num(n: real)
    | Object(text: Option<string>, attrs: map<string, string>)

  /** The parameter a feed value passed through unchanged becomes. */
  function RawParam(v: Raw): Param {
    match v
    case Absent => Null
    case Scalar(s) => TextParam(s)
    case Attributed(t, a) => Object(t, a)
  }

  /** How the table reads back a parameter stored from a feed value. */
  function RawOf(p: Param): (r: Option<Raw>)
    ensures r.Some? <==> !p.Num?
  {
    match p
    case Null => Some(Absent)
    case TextParam(s) => Some(Scalar(s))
    case Object(t, a) => Some(Attributed(t, a))
    case Num(_) => None
  }

  function TextOf(p: Param): Option<string> {
    if p.TextParam? then Some(p.t) else None
  }

  function NumOf(p: Param): Option<real> {
    if p.Num? then Some(p.n) else None
  }

  function LinkParam(link: Option<string>): Param {
    match link
    case Some(s) => TextParam(s)
    case None => Null
  }

  function LinkOfParam(p: Param): Option<Option<string>> {
    match p
    case Null => Some(None)
    case TextParam(s) => Some(Some(s))
    case _ => None
  }

  /** The twelve values `values.push(...)` appends for one row, in the column
      order `descricao, tipo, finalidade, qtd_quartos, qtd_banheiros,
      qtd_vagas, preco, area_imovel, link, bairro, cidade, ref`. */
  function Params(row: Row): (ps: seq<Param>)
    ensures |ps| == 12
    ensures ps[1] == TextParam(row.tipo) && ps[2] == TextParam(row.finalidade)
    ensures ps[9] == TextParam(row.bairro) && ps[10] == TextParam(row.cidade)
    ensures forall k :: 3 <= k < 8 ==> ps[k].Num?
  {
    [RawParam(row.descricao), TextParam(row.tipo), TextParam(row.finalidade),
     Num(row.quartos), Num(row.banheiros), Num(row.vagas), Num(row.preco), Num(row.area),
     LinkParam(row.link), TextParam(row.bairro), TextParam(row.cidade), RawParam(row.ref)]
  }

  /** The row a group of twelve bound values is stored as, when each value has
      the kind its column takes. */
  function RowOf(ps: seq<Param>): Option<Row> {
    if |ps| != 12 then None
    else
      var descricao :- RawOf(ps[0]);
      var tipo :- TextOf(ps[1]);
      var finalidade :- TextOf(ps[2]);
      var quartos :- NumOf(ps[3]);
      var banheiros :- NumOf(ps[4]);
      var vagas :- NumOf(ps[5]);
      var preco :- NumOf(ps[6]);
      var area :- NumOf(ps[7]);
      var link :- LinkOfParam(ps[8]);
      var bairro :- TextOf(ps[9]);
      var cidade :- TextOf(ps[10]);
      var ref :- RawOf(ps[11]);
      Some(Row(descricao, tipo, finalidade, quartos, banheiros, vagas, preco, area,
               link, bairro, cidade, ref))
  }

  /** The values pushed for a row are stored as exactly that row. */
  lemma RowOfParams(row: Row)
    ensures RowOf(Params(row)) == Some(row)
  {
  }

  // ----- Placeholders -----

  /** The parameter numbers of the placeholder group pushed for the listing at
      `index` (`baseIndex = index * 12`): `$(baseIndex + 1)` to `$(baseIndex + 12)`. */
  function Group(index: nat): (g: seq<nat>)
    ensures |g| == 12
    ensures forall k :: 0 <= k < 12 ==> g[k] == 12 * index + k + 1
  {
    seq(12, k => 12 * index + k + 1)
  }

  /** The placeholder groups pushed for the first `n` listings. */
  function Groups(n: nat): (gs: seq<seq<nat>>)
    ensures |gs| == n
    ensures forall i :: 0 <= i < n ==> gs[i] == Group(i)
  {
    if n == 0 then [] else Groups(n - 1) + [Group(n - 1)]
  }

  /** The `values` array after the rows `rows`: each row's twelve values, one
      row after the other. */
  function Flatten(rows: seq<Row>): (vs: seq<Param>)
    ensures |vs| == 12 * |rows|
  {
    if rows == [] then [] else Flatten(rows[..|rows| - 1]) + Params(rows[|rows| - 1])
  }

  /** Appending a row appends its twelve values. */
  lemma FlattenSnoc(rows: seq<Row>, row: Row)
    ensures Flatten(rows + [row]) == Flatten(rows) + Params(row)
  {
    assert (rows + [row])[..|rows|] == rows;
  }

  /** Values `12*i` to `12*i + 11` are row `i`'s. */
  lemma {:induction false} FlattenAt(rows: seq<Row>, i: nat)
    requires i < |rows|
    ensures Flatten(rows)[12 * i..12 * i + 12] == Params(rows[i])
    decreases |rows|
  {
    var n := |rows| - 1;
    var init := rows[..n];
    var front, last := Flatten(init), Params(rows[n]);
    assert Flatten(rows) == front + last;
    if i < n {
      FlattenAt(init, i);
      assert init[i] == rows[i];
      SliceOfLeft(front, last, 12 * i, 12 * i + 12);
    } else {
      assert 12 * i == |front| && 12 * i + 12 == |front| + |last|;
      SliceOfRight(front, last);
    }
  }

  /** A slice inside the left operand of `+` is a slice of that operand. */
  lemma {:induction false} SliceOfLeft<T>(a: seq<T>, b: seq<T>, lo: nat, hi: nat)
    requires lo <= hi <= |a|
    ensures (a + b)[lo..hi] == a[lo..hi]
  {
    assert forall k | 0 <= k < hi - lo :: (a + b)[lo..hi][k] == a[lo..hi][k];
  }

  /** The right operand of `+` is the slice after the left one. */
  lemma {:induction false} SliceOfRight<T>(a: seq<T>, b: seq<T>)
    ensures (a + b)[|a|..|a| + |b|] == b
  {
    assert forall k | 0 <= k < |b| :: (a + b)[|a|..|a| + |b|][k] == b[k];
  }

  /** Which group and which position in it parameter number `p` belongs to. */
  function Slot(p: nat): (nat, nat)
    requires p >= 1
  {
    ((p - 1) / 12, (p - 1) % 12)
  }

  /** The placeholder groups of `n` listings use parameters `$1` to `$(12*n)`,
      each exactly once: every number in a group is in range, no number
      appears twice, and every number in range appears at its slot. */
  lemma GroupsPartition(n: nat)
    ensures forall i, k :: 0 <= i < n && 0 <= k < 12 ==> 1 <= Groups(n)[i][k] <= 12 * n
    ensures forall i, k, j, m ::
              (0 <= i < n && 0 <= k < 12 && 0 <= j < n && 0 <= m < 12
               && Groups(n)[i][k] == Groups(n)[j][m]) ==> i == j && k == m
    ensures forall p :: 1 <= p <= 12 * n ==>
              Slot(p).0 < n && Slot(p).1 < 12 && Groups(n)[Slot(p).0][Slot(p).1] == p
  {
    forall i, k, j, m | 0 <= i < n && 0 <= k < 12 && 0 <= j < n && 0 <= m < 12
      && Groups(n)[i][k] == Groups(n)[j][m]
      ensures i == j && k == m
    {
      SlotInjective(i, k, j, m);
    }
  }

  lemma SlotInjective(i: nat, k: nat, j: nat, m: nat)
    requires k < 12 && m < 12
    requires 12 * i + k == 12 * j + m
    ensures i == j && k == m
  {
  }

  /** The batch the loop builds: the placeholder groups joined into the
      `VALUES` list, and the bound values. */
  datatype Batch = Batch(placeholders: seq<seq<nat>>, values: seq<Param>)

  // ----- Binding -----

  /** The values a placeholder group refers to (`$p` is `values[p - 1]`), or
      `None` when a number is out of range, which the database rejects. */
  function Lookup(g: seq<nat>, values: seq<Param>): (r: Option<seq<Param>>)
    ensures r.Some? ==> |r.value| == |g|
  {
    if forall k :: 0 <= k < |g| ==> 1 <= g[k] <= |values| then
      Some(seq(|g|, k requires 0 <= k < |g| && 1 <= g[k] <= |values| => values[g[k] - 1]))
    else None
  }

  /** The rows a multi-row `INSERT` stores, one per placeholder group, or
      `None` when it is rejected. */
  function Bind(groups: seq<seq<nat>>, values: seq<Param>): (r: Option<seq<Row>>)
    ensures r.Some? ==> |r.value| == |groups|
  {
    if groups == [] then Some([])
    else
      var init :- Bind(groups[..|groups| - 1], values);
      var ps :- Lookup(groups[|groups| - 1], values);
      var row :- RowOf(ps);
      Some(init + [row])
  }

  /** Group `i` selects values `12*i` to `12*i + 11`. */
  lemma LookupBlock(vs: seq<Param>, i: nat)
    requires 12 * i + 12 <= |vs|
    ensures Lookup(Group(i), vs) == Some(vs[12 * i..12 * i + 12])
  {
    var g := Group(i);
    assert forall k :: 0 <= k < |g| ==> 1 <= g[k] <= |vs|;
    var ps := Lookup(g, vs).value;
    forall k | 0 <= k < 12
      ensures ps[k] == vs[12 * i..12 * i + 12][k]
    {
      assert ps[k] == vs[g[k] - 1];
    }
    assert ps == vs[12 * i..12 * i + 12];
  }

  /** Group `i` of a batch selects exactly row `i`'s values. */
  lemma LookupGroup(rows: seq<Row>, i: nat)
    requires i < |rows|
    ensures Lookup(Group(i), Flatten(rows)) == Some(Params(rows[i]))
  {
    FlattenAt(rows, i);
    LookupBlock(Flatten(rows), i);
  }

  lemma {:induction false} BindPrefix(rows: seq<Row>, m: nat)
    requires m <= |rows|
    ensures Bind(Groups(m), Flatten(rows)) == Some(rows[..m])
    decreases m
  {
    if m > 0 {
      BindPrefix(rows, m - 1);
      var gs, vs, row := Groups(m), Flatten(rows), rows[m - 1];
      assert gs[..m - 1] == Groups(m - 1);
      assert gs[m - 1] == Group(m - 1);
      LookupGroup(rows, m - 1);
      RowOfParams(row);
      assert Bind(gs, vs) == Some(rows[..m - 1] + [row]);
      PrefixSnoc(rows, m);
    }
  }

  lemma PrefixSnoc<T>(s: seq<T>, m: nat)
    requires 0 < m <= |s|
    ensures s[..m] == s[..m - 1] + [s[m - 1]]
  {
  }

  /** The database stores a built batch as exactly the rows it was built from:
      listing `i` is bound to parameters `12*i + 1` to `12*i + 12`. */
  lemma BindBuilt(rows: seq<Row>)
    ensures Bind(Groups(|rows|), Flatten(rows)) == Some(rows)
  {
    BindPrefix(rows, |rows|);
    assert rows[..|rows|] == rows;
  }

  // ----- Normalising every listing -----

  /** The callback threw for the listing at `index`, at `field`. */
  datatype ListingError = ListingError(index: nat, field: Field)

  /** `callback` run over `listings` in order, as `listings.forEach` runs
      it: every row, or the first listing it throws for (`ForEachRows`,
      `ForEachFirstFault`). The callback of the source is `Normalize`. */
  function ForEach(callback: Listing -> Result<Row, Field>, listings: seq<Listing>): (r: Result<seq<Row>, ListingError>)
    ensures r.Success? ==> |r.value| == |listings|
    ensures r.Failure? ==> r.error.index < |listings|
  {
    if listings == [] then Success([])
    else
      var n := |listings| - 1;
      var rows :- ForEach(callback, listings[..n]);
      match callback(listings[n])
      case Success(row) => Success(rows + [row])
      case Failure(f) => Failure(ListingError(n, f))
  }

  /** On success, row `i` is the callback's row for listing `i`. */
  lemma {:induction false} ForEachRows(callback: Listing -> Result<Row, Field>, listings: seq<Listing>)
    requires ForEach(callback, listings).Success?
    ensures forall i :: 0 <= i < |listings| ==> callback(listings[i]) == Success(ForEach(callback, listings).value[i])
    decreases |listings|
  {
    if listings != [] {
      var n := |listings| - 1;
      var init := listings[..n];
      ForEachRows(callback, init);
      assert forall i :: 0 <= i < n ==> init[i] == listings[i];
    }
  }

  /** On failure, the callback throws for the reported listing at the reported
      field, and returns a row for every listing before it. */
  lemma {:induction false} ForEachFirstFault(callback: Listing -> Result<Row, Field>, listings: seq<Listing>)
    requires ForEach(callback, listings).Failure?
    ensures var e := ForEach(callback, listings).error;
            && callback(listings[e.index]) == Failure(e.field)
            && forall i :: 0 <= i < e.index ==> callback(listings[i]).Success?
    decreases |listings|
  {
    var n := |listings| - 1;
    var init := listings[..n];
    assert forall i :: 0 <= i < n ==> init[i] == listings[i];
    if ForEach(callback, init).Failure? {
      ForEachFirstFault(callback, init);
    } else {
      ForEachRows(callback, init);
    }
  }

  /** When the callback returns a row for every listing before `index` and
      throws for the one at `index`, the whole run fails there. */
  lemma {:induction false} ForEachFailsAt(callback: Listing -> Result<Row, Field>, listings: seq<Listing>, index: nat)
    requires index < |listings|
    requires ForEach(callback, listings[..index]).Success?
    requires callback(listings[index]).Failure?
    ensures ForEach(callback, listings) == Failure(ListingError(index, callback(listings[index]).error))
    decreases |listings|
  {
    var n := |listings| - 1;
    var init := listings[..n];
    if index < n {
      assert init[..index] == listings[..index];
      assert init[index] == listings[index];
      ForEachFailsAt(callback, init, index);
    } else {
      assert init == listings[..index];
    }
  }

  /** A single listing the callback maps to a row gives that one row. */
  lemma ForEachSingle(callback: Listing -> Result<Row, Field>, l: Listing)
    requires callback(l).Success?
    ensures ForEach(callback, [l]) == Success([callback(l).value])
  {
    assert [l][..0] == [];
    assert ForEach(callback, []) == Success([]);
    assert [] + [callback(l).value] == [callback(l).value];
  }

  /** The loop completes exactly when the callback returns a row for every
      listing. */
  lemma ForEachSucceedsIff(callback: Listing -> Result<Row, Field>, listings: seq<Listing>)
    ensures ForEach(callback, listings).Success? <==>
              forall i :: 0 <= i < |listings| ==> callback(listings[i]).Success?
  {
    if ForEach(callback, listings).Success? {
      ForEachRows(callback, listings);
    } else {
      ForEachFirstFault(callback, listings);
    }
  }

  /** All listings normalise exactly when every listing's calls succeed. */
  lemma ForEachNormalizeSucceeds(listings: seq<Listing>)
    ensures ForEach(Normalize, listings).Success? <==>
              forall i, f :: 0 <= i < |listings| ==> FieldOk(listings[i], f)
  {
    forall i | 0 <= i < |listings|
      ensures Normalize(listings[i]).Success? <==> forall f :: FieldOk(listings[i], f)
    {
      NormalizeSucceeds(listings[i]);
    }
    ForEachSucceedsIff(Normalize, listings);
  }

  /** One more listing that gives a row appends that row. */
  lemma {:induction false} ForEachSnoc(callback: Listing -> Result<Row, Field>, listings: seq<Listing>, i: nat)
    requires i < |listings| && ForEach(callback, listings[..i]).Success? && callback(listings[i]).Success?
    ensures ForEach(callback, listings[..i + 1]) ==
              Success(ForEach(callback, listings[..i]).value + [callback(listings[i]).value])
  {
    assert listings[..i + 1][..i] == listings[..i];
  }

  /** The `forEach` loop. It builds `values` and `placeholders` listing by
      listing, or stops at the first listing that throws. */
  method BuildBatch(callback: Listing -> Result<Row, Field>, listings: seq<Listing>) returns (r: Result<Batch, ListingError>)
    ensures r.Success? <==> ForEach(callback, listings).Success?
    ensures r.Success? ==>
              && r.value.placeholders == Groups(|listings|)
              && r.value.values == Flatten(ForEach(callback, listings).value)
    ensures r.Failure? ==> r.error == ForEach(callback, listings).error
  {
    var values: seq<Param> := [];
    var placeholders: seq<seq<nat>> := [];
    var index := 0;
    while index < |listings|
      invariant 0 <= index <= |listings|
      invariant ForEach(callback, listings[..index]).Success?
      invariant placeholders == Groups(index)
      invariant values == Flatten(ForEach(callback, listings[..index]).value)
    {
      var row := callback(listings[index]);
      if row.Failure? {
        ForEachFailsAt(callback, listings, index);
        return Failure(ListingError(index, row.error));
      }
      ForEachSnoc(callback, listings, index);
      FlattenSnoc(ForEach(callback, listings[..index]).value, row.value);
      placeholders := placeholders + [Group(index)];
      values := values + Params(row.value);
      index := index + 1;
    }
    assert listings[..index] == listings;
    return Success(Batch(placeholders, values));
  }
}

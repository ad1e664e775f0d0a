/** The admin driver listing (`GET /api/admin/drivers`) and its export
    (`GET /api/admin/drivers/export`): reading the query string, paging,
    the WHERE-clause builder, the parameter lists bound to the `?`
    placeholders, and the "latest vehicle per driver" join. SQL text is a
    template of literal pieces and placeholders, so that binding can be
    stated exactly. */
module AdminList {
  import opened JsValues
  import opened Tables

  /** A parsed query string; a key that is not there reads as undefined. */
  type Query = map<string, JsVal>

  function Param(query: Query, key: string): JsVal
  {
    if key in query then query[key] else Undefined
  }

  /** `norm(v)`: `(v ?? "").toString().trim()` */
  function Norm(v: JsVal): (s: string)
    ensures IsTrimmed(s)
    ensures Nullish(v) ==> s == ""
    ensures v.Str? ==> s == Trim(v.s)
  {
    Trim(if Nullish(v) then "" else ToJsString(v))
  }

  /** The four filters after normalisation; `q` is also lower-cased. */
  datatype Filters = Filters(q: string, marca: string, dateFrom: string, dateTo: string)

  function ReadFilters(query: Query): (f: Filters)
    ensures IsTrimmed(f.q) && IsLowerCase(f.q)
    ensures IsTrimmed(f.marca) && IsTrimmed(f.dateFrom) && IsTrimmed(f.dateTo)
    ensures f.q == ToLower(Norm(Param(query, "q")))
    ensures f.marca == Norm(Param(query, "marca"))
    ensures f.dateFrom == Norm(Param(query, "date_from")) && f.dateTo == Norm(Param(query, "date_to"))
  {
    var q := Norm(Param(query, "q"));
    ToLowerKeepsTrimmed(q);
    ToLowerIdempotent(q);
    Filters(ToLower(q), Norm(Param(query, "marca")), Norm(Param(query, "date_from")), Norm(Param(query, "date_to")))
  }

  // ---------------------------------------------------------------------
  // Paging: page, pageSize, off

  /** `Math.max(lo, x)`; NaN stays NaN. */
  function MaxWith(lo: int, x: Numeric): Numeric
  {
    if x.NaN? then NaN else Finite(if x.n < lo then lo else x.n)
  }

  /** `Math.min(hi, x)`; NaN stays NaN. */
  function MinWith(hi: int, x: Numeric): Numeric
  {
    if x.NaN? then NaN else Finite(if x.n > hi then hi else x.n)
  }

  const DEFAULT_PAGE_SIZE := 10
  const MAX_PAGE_SIZE := 100

  /** `Math.max(1, Number(req.query.page || 1))`: at least 1, 1 when absent,
      NaN when the parameter is not a number. */
  function PageOf(query: Query): (p: Numeric)
    ensures p.Finite? ==> p.n >= 1
    ensures !Truthy(Param(query, "page")) ==> p == Finite(1)
    ensures Truthy(Param(query, "page")) ==>
              (p.NaN? <==> ToNumber(Param(query, "page")).NaN?)
              && (var n := ToNumber(Param(query, "page"));
                  n.Finite? ==> p == Finite(if n.n < 1 then 1 else n.n))
  {
    MaxWith(1, ToNumber(Or(Param(query, "page"), Num(1))))
  }

  /** `Math.min(100, Math.max(1, Number(req.query.pageSize || 10)))`: within
      [1, 100], 10 when absent, NaN when the parameter is not a number. */
  function PageSizeOf(query: Query): (s: Numeric)
    ensures s.Finite? ==> 1 <= s.n <= MAX_PAGE_SIZE
    ensures !Truthy(Param(query, "pageSize")) ==> s == Finite(DEFAULT_PAGE_SIZE)
    ensures Truthy(Param(query, "pageSize")) ==>
              (s.NaN? <==> ToNumber(Param(query, "pageSize")).NaN?)
              && (var n := ToNumber(Param(query, "pageSize"));
                  n.Finite? ==> s == Finite(if n.n < 1 then 1 else if n.n > MAX_PAGE_SIZE then MAX_PAGE_SIZE else n.n))
  {
    MinWith(MAX_PAGE_SIZE, MaxWith(1, ToNumber(Or(Param(query, "pageSize"), Num(DEFAULT_PAGE_SIZE)))))
  }

  /** `(page - 1) * pageSize`; NaN when either is NaN. */
  function Offset(page: Numeric, size: Numeric): (off: Numeric)
    ensures off.Finite? <==> page.Finite? && size.Finite?
    ensures off.Finite? && page.n >= 1 && size.n >= 1 ==> off.n >= 0
  {
    if page.NaN? || size.NaN? then NaN else Finite((page.n - 1) * size.n)
  }

  /** Pages tile the result: page p + 1 starts exactly where page p ends,
      and page 1 starts at row 0. */
  lemma PagesTile(p: int, s: int)
    requires p >= 1 && s >= 1
    ensures Offset(Finite(1), Finite(s)) == Finite(0)
    ensures Offset(Finite(p + 1), Finite(s)).n == Offset(Finite(p), Finite(s)).n + s
  {
    assert (p + 1 - 1) * s == (p - 1) * s + s;
  }

  // ---------------------------------------------------------------------
  // SQL templates and binding

  /** A piece of SQL text: literal text or a `?` placeholder. */
  datatype Piece = Lit(text: string) | Hole

  type Template = seq<Piece>

  /** A bound parameter: a string, or a number (possibly NaN). */
  datatype SqlValue = SqlText(s: string) | SqlNum(n: Numeric)

  /** The statement after binding: text, and values in place of placeholders. */
  datatype Token = Text(text: string) | Value(v: SqlValue)

  /** Number of placeholders. */
  function Holes(t: Template): nat
  {
    if t == [] then 0 else (if t[0].Hole? then 1 else 0) + Holes(t[1..])
  }

  /** Fill the placeholders left to right with `ps`, as the driver does. */
  function Bind(t: Template, ps: seq<SqlValue>): (r: seq<Token>)
    requires Holes(t) == |ps|
    ensures |r| == |t|
  {
    if t == [] then []
    else if t[0].Hole? then [Value(ps[0])] + Bind(t[1..], ps[1..])
    else [Text(t[0].text)] + Bind(t[1..], ps)
  }

  lemma {:induction false} HolesAppend(t: Template, u: Template)
    ensures Holes(t + u) == Holes(t) + Holes(u)
  {
    if t != [] {
      assert (t + u)[1..] == t[1..] + u;
      HolesAppend(t[1..], u);
    } else {
      assert t + u == u;
    }
  }

  /** Binding distributes over concatenation: the values of the first part
      fill the first part's placeholders. */
  lemma {:induction false} BindAppend(t: Template, u: Template, ps: seq<SqlValue>, qs: seq<SqlValue>)
    requires Holes(t) == |ps| && Holes(u) == |qs|
    ensures Holes(t + u) == |ps + qs|
    ensures Bind(t + u, ps + qs) == Bind(t, ps) + Bind(u, qs)
  {
    HolesAppend(t, u);
    if t == [] {
      assert t + u == u;
      assert ps + qs == qs;
    } else {
      assert (t + u)[1..] == t[1..] + u;
      assert (t + u)[0] == t[0];
      if t[0].Hole? {
        assert (ps + qs)[1..] == ps[1..] + qs;
        BindAppend(t[1..], u, ps[1..], qs);
      } else {
        BindAppend(t[1..], u, ps, qs);
      }
    }
  }

  // ---------------------------------------------------------------------
  // The WHERE builder

  /** The four filters, in the order the handler tests them. */
  datatype Clause = Search | Brand | DateFrom | DateTo

  /** Literal text followed by one placeholder. */
  function Slot(text: string): (t: Template)
    ensures Holes(t) == 1
  {
    var t := [Lit(text), Hole];
    assert t[1..] == [Hole];
    assert Holes(t[1..][1..]) == 0;
    assert Holes(t[1..]) == 1;
    t
  }

  /** The clause text each filter contributes. */
  function ClauseTemplate(c: Clause): (t: Template)
    ensures Holes(t) == if c == Search then 5 else 1
  {
    match c
    case Search =>
      var a := Slot(LIKE_NAME) + Slot(LIKE_EMAIL);
      var b := a + Slot(LIKE_DPI);
      var d := b + Slot(LIKE_MODEL);
      var e := d + Slot(LIKE_PLATE);
      var close: Template := [Lit(CLOSE_PAREN)];
      HolesAppend(Slot(LIKE_NAME), Slot(LIKE_EMAIL));
      HolesAppend(a, Slot(LIKE_DPI));
      HolesAppend(b, Slot(LIKE_MODEL));
      HolesAppend(d, Slot(LIKE_PLATE));
      HolesAppend(e, close);
      assert close[1..] == [];
      e + close
    case Brand => Slot(BRAND_IS)
    case DateFrom => Slot(CREATED_FROM)
    case DateTo => Slot(CREATED_TO)
  }

  const LIKE_NAME := "(LOWER(m.nombreCompleto) LIKE "
  const LIKE_EMAIL := " OR LOWER(m.email) LIKE "
  const LIKE_DPI := " OR m.dpi LIKE "
  const LIKE_MODEL := " OR LOWER(v.modelo) LIKE "
  const LIKE_PLATE := " OR LOWER(v.placa) LIKE "
  const CLOSE_PAREN := ")"
  const BRAND_IS := "v.marca = "
  const CREATED_FROM := "DATE(m.created_at) >= "
  const CREATED_TO := "DATE(m.created_at) <= "

  /** `%q%`: the LIKE pattern of the search text. */
  function LikePattern(q: string): string
  {
    "%" + q + "%"
  }

  /** The parameters each filter pushes, one per placeholder of its clause. */
  function ClauseValues(c: Clause, f: Filters): (vs: seq<SqlValue>)
    ensures |vs| == Holes(ClauseTemplate(c))
  {
    match c
    case Search => var like := SqlText(LikePattern(f.q)); [like, like, like, like, like]
    case Brand => [SqlText(f.marca)]
    case DateFrom => [SqlText(f.dateFrom)]
    case DateTo => [SqlText(f.dateTo)]
  }

  /** The filters that are set (non-empty after normalisation), in order. */
  function ActiveClauses(f: Filters): (cs: seq<Clause>)
  {
    Opt(f.q != "", Search) + Opt(f.marca != "", Brand) + Opt(f.dateFrom != "", DateFrom) + Opt(f.dateTo != "", DateTo)
  }

  /** The clause `c` when its filter is set, nothing otherwise. */
  function Opt(isSet: bool, c: Clause): seq<Clause>
  {
    if isSet then [c] else []
  }

  /** One clause per set filter, each filter at most once, in the order
      q, marca, date_from, date_to. */
  lemma ActiveClausesInOrder(f: Filters)
    ensures var cs := ActiveClauses(f);
            && |cs| == (if f.q != "" then 1 else 0) + (if f.marca != "" then 1 else 0)
                       + (if f.dateFrom != "" then 1 else 0) + (if f.dateTo != "" then 1 else 0)
            && (forall i, j :: 0 <= i < j < |cs| ==> ClauseRank(cs[i]) < ClauseRank(cs[j]))
            && (forall c :: c in cs <==> IsSet(c, f))
  {
  }

  function ClauseRank(c: Clause): nat
  {
    match c
    case Search => 0
    case Brand => 1
    case DateFrom => 2
    case DateTo => 3
  }

  predicate IsSet(c: Clause, f: Filters)
  {
    match c
    case Search => f.q != ""
    case Brand => f.marca != ""
    case DateFrom => f.dateFrom != ""
    case DateTo => f.dateTo != ""
  }

  /** The `where` array: the clause texts in order. */
  function Templates(cs: seq<Clause>): (ts: seq<Template>)
    ensures |ts| == |cs| && forall i :: 0 <= i < |cs| ==> ts[i] == ClauseTemplate(cs[i])
  {
    if cs == [] then [] else [ClauseTemplate(cs[0])] + Templates(cs[1..])
  }

  /** The `params` array: each clause's values in clause order. */
  function ValuesOf(cs: seq<Clause>, f: Filters): seq<SqlValue>
  {
    if cs == [] then [] else ClauseValues(cs[0], f) + ValuesOf(cs[1..], f)
  }

  lemma {:induction false} TemplatesAppend(a: seq<Clause>, b: seq<Clause>)
    ensures Templates(a + b) == Templates(a) + Templates(b)
  {
    if a == [] {
      assert a + b == b;
    } else {
      assert (a + b)[1..] == a[1..] + b;
      TemplatesAppend(a[1..], b);
    }
  }

  lemma {:induction false} ValuesOfAppend(a: seq<Clause>, b: seq<Clause>, f: Filters)
    ensures ValuesOf(a + b, f) == ValuesOf(a, f) + ValuesOf(b, f)
  {
    if a == [] {
      assert a + b == b;
    } else {
      assert (a + b)[1..] == a[1..] + b;
      ValuesOfAppend(a[1..], b, f);
    }
  }

  /** One block of the builder: when the filter is set, push its clause
      text onto `where` and its values onto `params`. */
  method PushIfSet(where: seq<Template>, params: seq<SqlValue>, isSet: bool, c: Clause, f: Filters)
    returns (where': seq<Template>, params': seq<SqlValue>)
    ensures where' == where + Templates(Opt(isSet, c))
    ensures params' == params + ValuesOf(Opt(isSet, c), f)
  {
    where', params' := where, params;
    if isSet {
      where' := where' + [ClauseTemplate(c)];
      params' := params' + ClauseValues(c, f);
    }
  }

  /** The filter builder: pushes one clause text and its parameters per set
      filter, in the order q, marca, date_from, date_to. */
  method BuildWhere(f: Filters) returns (where: seq<Template>, params: seq<SqlValue>)
    ensures where == Templates(ActiveClauses(f))
    ensures params == ValuesOf(ActiveClauses(f), f)
  {
    where, params := PushIfSet([], [], f.q != "", Search, f);
    where, params := PushIfSet(where, params, f.marca != "", Brand, f);
    where, params := PushIfSet(where, params, f.dateFrom != "", DateFrom, f);
    where, params := PushIfSet(where, params, f.dateTo != "", DateTo, f);
    ActiveClausesSplit(f);
  }

  /** The specification of the builder, block by block. */
  lemma ActiveClausesSplit(f: Filters)
    ensures var a, b, c, d := Opt(f.q != "", Search), Opt(f.marca != "", Brand),
                              Opt(f.dateFrom != "", DateFrom), Opt(f.dateTo != "", DateTo);
            && Templates(ActiveClauses(f)) == [] + Templates(a) + Templates(b) + Templates(c) + Templates(d)
            && ValuesOf(ActiveClauses(f), f) == [] + ValuesOf(a, f) + ValuesOf(b, f) + ValuesOf(c, f) + ValuesOf(d, f)
  {
    var a, b, c, d := Opt(f.q != "", Search), Opt(f.marca != "", Brand),
                      Opt(f.dateFrom != "", DateFrom), Opt(f.dateTo != "", DateTo);
    Grow(a, b, f);
    Grow(a + b, c, f);
    Grow(a + b + c, d, f);
    assert [] + Templates(a) == Templates(a);
    assert [] + ValuesOf(a, f) == ValuesOf(a, f);
  }

  lemma Grow(done: seq<Clause>, next: seq<Clause>, f: Filters)
    ensures Templates(done + next) == Templates(done) + Templates(next)
    ensures ValuesOf(done + next, f) == ValuesOf(done, f) + ValuesOf(next, f)
  {
    TemplatesAppend(done, next);
    ValuesOfAppend(done, next, f);
  }

  const AND_TEXT := " AND "
  const AND: Template := [Lit(AND_TEXT)]

  /** `parts.join(" AND ")` on templates. */
  function JoinTemplates(ts: seq<Template>): Template
  {
    if ts == [] then []
    else if |ts| == 1 then ts[0]
    else ts[0] + AND + JoinTemplates(ts[1..])
  }

  /** Bound clauses joined with the AND text. */
  function JoinBound(bs: seq<seq<Token>>): seq<Token>
  {
    if bs == [] then []
    else if |bs| == 1 then bs[0]
    else bs[0] + [Text(AND_TEXT)] + JoinBound(bs[1..])
  }

  /** Each clause bound on its own to its own values. */
  function BoundEach(cs: seq<Clause>, f: Filters): (bs: seq<seq<Token>>)
    ensures |bs| == |cs|
    ensures forall i :: 0 <= i < |cs| ==> bs[i] == Bind(ClauseTemplate(cs[i]), ClauseValues(cs[i], f))
  {
    if cs == [] then [] else [Bind(ClauseTemplate(cs[0]), ClauseValues(cs[0], f))] + BoundEach(cs[1..], f)
  }

  /** Clause order matches parameter order: the joined WHERE text has one
      placeholder per parameter, and binding it gives every clause exactly
      its own parameters. */
  lemma {:induction false} WhereAligned(cs: seq<Clause>, f: Filters)
    ensures Holes(JoinTemplates(Templates(cs))) == |ValuesOf(cs, f)|
    ensures Bind(JoinTemplates(Templates(cs)), ValuesOf(cs, f)) == JoinBound(BoundEach(cs, f))
  {
    if cs == [] {
    } else if |cs| == 1 {
      assert ValuesOf(cs, f) == ClauseValues(cs[0], f) + ValuesOf([], f);
      assert ValuesOf(cs, f) == ClauseValues(cs[0], f);
    } else {
      assert Templates(cs)[1..] == Templates(cs[1..]);
      WhereAligned(cs[1..], f);
      JoinStep(ClauseTemplate(cs[0]), JoinTemplates(Templates(cs[1..])), ClauseValues(cs[0], f), ValuesOf(cs[1..], f));
      assert BoundEach(cs, f)[1..] == BoundEach(cs[1..], f);
    }
  }

  /** Binding `t AND rest` binds `t` to its own values and `rest` to the others. */
  lemma JoinStep(t: Template, rest: Template, ps: seq<SqlValue>, qs: seq<SqlValue>)
    requires Holes(t) == |ps| && Holes(rest) == |qs|
    ensures Holes(t + AND + rest) == |ps + qs|
    ensures Bind(t + AND + rest, ps + qs) == Bind(t, ps) + [Text(AND_TEXT)] + Bind(rest, qs)
  {
    BindAppend(AND, rest, [], qs);
    BindAppend(t, AND + rest, ps, qs);
    assert t + (AND + rest) == t + AND + rest;
  }

  const WHERE_TEXT := "WHERE "

  /** `where.length ? "WHERE " + where.join(" AND ") : ""` */
  function WhereSql(where: seq<Template>): (t: Template)
    ensures where == [] <==> t == []
    ensures where != [] ==> t[0] == Lit(WHERE_TEXT) && t[1..] == JoinTemplates(where)
  {
    if where == [] then [] else [Lit(WHERE_TEXT)] + JoinTemplates(where)
  }

  /** No WHERE text at all exactly when no filter is set. */
  lemma WhereEmptyIffNoFilter(f: Filters)
    ensures WhereSql(Templates(ActiveClauses(f))) == [] <==> f.q == "" && f.marca == "" && f.dateFrom == "" && f.dateTo == ""
  {
    ActiveClausesInOrder(f);
  }

  lemma ValuesOfOpt(isSet: bool, c: Clause, f: Filters)
    ensures ValuesOf(Opt(isSet, c), f) == if isSet then ClauseValues(c, f) else []
  {
    if isSet {
      assert ValuesOf([c], f) == ClauseValues(c, f) + ValuesOf([], f);
    }
  }

  /** The parameters, filter by filter: five copies of `%q%` for a search,
      then one value for each other set filter, in clause order. */
  lemma {:induction false} FilterValues(f: Filters)
    ensures ValuesOf(ActiveClauses(f), f)
            == (if f.q != "" then seq(5, _ => SqlText(LikePattern(f.q))) else [])
               + (if f.marca != "" then [SqlText(f.marca)] else [])
               + (if f.dateFrom != "" then [SqlText(f.dateFrom)] else [])
               + (if f.dateTo != "" then [SqlText(f.dateTo)] else [])
  {
    var a := Opt(f.q != "", Search);
    var b := Opt(f.marca != "", Brand);
    var c := Opt(f.dateFrom != "", DateFrom);
    var d := Opt(f.dateTo != "", DateTo);
    ValuesOfAppend(a, b, f);
    ValuesOfAppend(a + b, c, f);
    ValuesOfAppend(a + b + c, d, f);
    ValuesOfOpt(f.q != "", Search, f);
    ValuesOfOpt(f.marca != "", Brand, f);
    ValuesOfOpt(f.dateFrom != "", DateFrom, f);
    ValuesOfOpt(f.dateTo != "", DateTo, f);
    var like := SqlText(LikePattern(f.q));
    assert [like, like, like, like, like] == seq(5, _ => like);
  }

  // ---------------------------------------------------------------------
  // The two statements of the listing and the export

  const FROM_LATEST := "FROM motoristas m LEFT JOIN (latest vehicle per driver) v ON v.motorista_id = m.id "
  const LIST_COLUMNS := "SELECT m.id, m.nombreCompleto, m.dpi, m.email, m.created_at, v.marca, v.modelo, v.anio, v.placa "
  const ORDER_NEWEST := " ORDER BY m.created_at DESC, m.id DESC"
  const EXPORT_COLUMNS := "SELECT m.id AS ID, m.nombreCompleto AS Nombre, m.dpi AS DPI, m.email AS Email, IFNULL(v.marca,'') AS Marca, IFNULL(v.modelo,'') AS Modelo, IFNULL(v.anio,'') AS Anio, IFNULL(v.placa,'') AS Placa, DATE_FORMAT(m.created_at,'%d/%m/%Y') AS Registro "

  const COUNT_COLUMNS := "SELECT COUNT(*) AS total "
  const PAGE_LIMIT := ORDER_NEWEST + " LIMIT "
  const OFFSET_TEXT := " OFFSET "

  /** The export's row cap. */
  const EXPORT_ROW_CAP := 20000
  const EXPORT_TAIL := ORDER_NEWEST + " LIMIT " + IntToString(EXPORT_ROW_CAP)

  /** The clause texts the builder pushes for the filters `f`. */
  function WhereOf(f: Filters): seq<Template>
  {
    Templates(ActiveClauses(f))
  }

  /** `sqlBase`: the join and the WHERE text built from the pushed clauses. */
  function SqlBase(where: seq<Template>): Template
  {
    [Lit(FROM_LATEST)] + WhereSql(where)
  }

  /** `SELECT COUNT(*) AS total ${sqlBase}` */
  function CountStatement(where: seq<Template>): Template
  {
    [Lit(COUNT_COLUMNS)] + SqlBase(where)
  }

  /** `ORDER BY ... LIMIT ? OFFSET ?` */
  function PageTail(): (t: Template)
    ensures Holes(t) == 2
  {
    HolesAppend(Slot(PAGE_LIMIT), Slot(OFFSET_TEXT));
    Slot(PAGE_LIMIT) + Slot(OFFSET_TEXT)
  }

  /** The page query: the filters, then `LIMIT ? OFFSET ?`. */
  function ListStatement(where: seq<Template>): Template
  {
    [Lit(LIST_COLUMNS)] + SqlBase(where) + PageTail()
  }

  /** `[...params, pageSize, off]` */
  function ListParams(f: Filters, pageSize: Numeric, off: Numeric): seq<SqlValue>
  {
    ValuesOf(ActiveClauses(f), f) + [SqlNum(pageSize), SqlNum(off)]
  }

  /** The export query: the same filters, no placeholders of its own, at most 20000 rows. */
  function ExportStatement(where: seq<Template>): Template
  {
    [Lit(EXPORT_COLUMNS)] + SqlBase(where) + [Lit(EXPORT_TAIL)]
  }

  /** The shared FROM/WHERE text has one placeholder per filter value, and
      binding it gives the FROM text, then (when a filter is set) the WHERE
      text followed by each clause bound to its own values, joined with AND. */
  lemma SqlBaseAligned(f: Filters)
    ensures Holes(SqlBase(WhereOf(f))) == |ValuesOf(ActiveClauses(f), f)|
    ensures Bind(SqlBase(WhereOf(f)), ValuesOf(ActiveClauses(f), f))
            == [Text(FROM_LATEST)]
               + (if ActiveClauses(f) == [] then [] else [Text(WHERE_TEXT)] + JoinBound(BoundEach(ActiveClauses(f), f)))
  {
    var cs := ActiveClauses(f);
    var ps := ValuesOf(cs, f);
    WhereAligned(cs, f);
    assert Holes([Lit(FROM_LATEST)]) == 0 && Bind([Lit(FROM_LATEST)], []) == [Text(FROM_LATEST)];
    if cs != [] {
      assert Holes([Lit(WHERE_TEXT)]) == 0 && Bind([Lit(WHERE_TEXT)], []) == [Text(WHERE_TEXT)];
      BindAppend([Lit(WHERE_TEXT)], JoinTemplates(Templates(cs)), [], ps);
      assert [] + ps == ps;
    } else {
      assert WhereSql(Templates(cs)) == [] && ps == [];
    }
    BindAppend([Lit(FROM_LATEST)], WhereSql(Templates(cs)), [], ps);
    assert [] + ps == ps;
  }

  lemma BindLit(text: string)
    ensures Holes([Lit(text)]) == 0 && Bind([Lit(text)], []) == [Text(text)]
  {
    var t: Template := [Lit(text)];
    assert t[1..] == [];
  }

  lemma BindSlot(text: string, v: SqlValue)
    ensures Bind(Slot(text), [v]) == [Text(text), Value(v)]
  {
    var t := Slot(text);
    assert t[1..] == [Hole];
    assert Bind(t[1..], [v]) == [Value(v)] + Bind([], []);
  }

  /** pageSize fills the LIMIT placeholder and off the OFFSET one. */
  lemma PageTailBinding(pageSize: Numeric, off: Numeric)
    ensures Bind(PageTail(), [SqlNum(pageSize), SqlNum(off)])
            == [Text(PAGE_LIMIT), Value(SqlNum(pageSize)), Text(OFFSET_TEXT), Value(SqlNum(off))]
  {
    BindAppend(Slot(PAGE_LIMIT), Slot(OFFSET_TEXT), [SqlNum(pageSize)], [SqlNum(off)]);
    BindSlot(PAGE_LIMIT, SqlNum(pageSize));
    BindSlot(OFFSET_TEXT, SqlNum(off));
  }

  /** A statement made of a leading text, a middle and a tail binds each
      part to its own values. */
  lemma FramedBinding(head: string, body: Template, tail: Template, ps: seq<SqlValue>, qs: seq<SqlValue>)
    requires Holes(body) == |ps| && Holes(tail) == |qs|
    ensures Holes([Lit(head)] + body + tail) == |ps + qs|
    ensures Bind([Lit(head)] + body + tail, ps + qs) == [Text(head)] + Bind(body, ps) + Bind(tail, qs)
  {
    BindAppend([Lit(head)], body, [], ps);
    assert [] + ps == ps;
    BindAppend([Lit(head)] + body, tail, ps, qs);
  }

  /** The count and the page query bind the same filter values to the same
      filter text; the page query then binds pageSize to LIMIT and off to
      OFFSET, in that order. */
  lemma ListBinding(f: Filters, pageSize: Numeric, off: Numeric)
    ensures Holes(SqlBase(WhereOf(f))) == |ValuesOf(ActiveClauses(f), f)|
    ensures Holes(CountStatement(WhereOf(f))) == |ValuesOf(ActiveClauses(f), f)|
    ensures Holes(ListStatement(WhereOf(f))) == |ListParams(f, pageSize, off)|
    ensures Bind(ListStatement(WhereOf(f)), ListParams(f, pageSize, off))
            == [Text(LIST_COLUMNS)] + Bind(SqlBase(WhereOf(f)), ValuesOf(ActiveClauses(f), f))
               + [Text(PAGE_LIMIT), Value(SqlNum(pageSize)), Text(OFFSET_TEXT), Value(SqlNum(off))]
  {
    var ps := ValuesOf(ActiveClauses(f), f);
    SqlBaseAligned(f);
    HolesAppend([Lit(COUNT_COLUMNS)], SqlBase(WhereOf(f)));
    FramedBinding(LIST_COLUMNS, SqlBase(WhereOf(f)), PageTail(), ps, [SqlNum(pageSize), SqlNum(off)]);
    PageTailBinding(pageSize, off);
  }

  /** The export binds exactly the listing's filter values to the same
      filter text, and nothing else. */
  lemma ExportBinding(f: Filters)
    ensures Holes(SqlBase(WhereOf(f))) == |ValuesOf(ActiveClauses(f), f)|
    ensures Holes(ExportStatement(WhereOf(f))) == |ValuesOf(ActiveClauses(f), f)|
    ensures Bind(ExportStatement(WhereOf(f)), ValuesOf(ActiveClauses(f), f))
            == [Text(EXPORT_COLUMNS)] + Bind(SqlBase(WhereOf(f)), ValuesOf(ActiveClauses(f), f))
               + [Text(EXPORT_TAIL)]
  {
    var ps := ValuesOf(ActiveClauses(f), f);
    SqlBaseAligned(f);
    var tail: Template := [Lit(EXPORT_TAIL)];
    BindLit(EXPORT_TAIL);
    FramedBinding(EXPORT_COLUMNS, SqlBase(WhereOf(f)), tail, ps, []);
    assert ps + [] == ps;
  }

  // ---------------------------------------------------------------------
  // The handlers' plans

  /** What `/drivers` sends to the database and echoes back. */
  datatype ListPlan = ListPlan(
    countSql: Template, countParams: seq<SqlValue>,
    listSql: Template, listParams: seq<SqlValue>,
    page: Numeric, pageSize: Numeric)

  /** The statements are built from the clauses the builder pushed. */
  method PlanList(query: Query) returns (plan: ListPlan)
    ensures var f := ReadFilters(query);
            var page := PageOf(query);
            var size := PageSizeOf(query);
            && plan.page == page && plan.pageSize == size
            && Holes(plan.countSql) == |plan.countParams|
            && Holes(plan.listSql) == |plan.listParams|
            && plan.listParams == plan.countParams + [SqlNum(size), SqlNum(Offset(page, size))]
            && plan.countParams == ValuesOf(ActiveClauses(f), f)
            && plan.countSql == CountStatement(WhereOf(f))
            && plan.listSql == ListStatement(WhereOf(f))
  {
    var f := ReadFilters(query);
    var page := PageOf(query);
    var pageSize := PageSizeOf(query);
    var off := Offset(page, pageSize);
    var where, params := BuildWhere(f);
    var countSql, listSql := CountStatement(where), ListStatement(where);
    assert countSql == CountStatement(WhereOf(f)) && listSql == ListStatement(WhereOf(f));
    ListBinding(f, pageSize, off);
    plan := ListPlan(countSql, params, listSql, params + [SqlNum(pageSize), SqlNum(off)], page, pageSize);
  }

  /** What `/drivers/export` sends to the database: the statement is built
      from the clauses the builder pushed. */
  method PlanExport(query: Query) returns (sql: Template, params: seq<SqlValue>)
    ensures var f := ReadFilters(query);
            && sql == ExportStatement(WhereOf(f))
            && params == ValuesOf(ActiveClauses(f), f)
            && Holes(sql) == |params|
  {
    var f := ReadFilters(query);
    var where;
    where, params := BuildWhere(f);
    assert where == WhereOf(f);
    ExportBinding(f);
    sql := ExportStatement(where);
  }

  // ---------------------------------------------------------------------
  // The latest vehicle per driver

  /** `v` is a row of the subquery: its id is the largest among its driver's rows. */
  predicate IsLatestOfDriver(vs: seq<VehicleRow>, v: VehicleRow)
  {
    v in vs && forall w :: w in vs && w.driverId == v.driverId ==> w.id <= v.id
  }

  /** The subquery `JOIN (SELECT motorista_id, MAX(id) ...) x ON x.last_id = vv.id`,
      in table order. The SQL joins on the id alone (`x.last_id = vv.id`);
      this model also matches the driver, which agrees with the SQL because
      vehicle ids are unique (`VehicleIdsIncreasing`). */
  function LatestPerDriver(vs: seq<VehicleRow>): (r: seq<VehicleRow>)
    ensures forall v :: v in r <==> IsLatestOfDriver(vs, v)
  {
    LatestAmong(vs, vs)
  }

  function LatestAmong(vs: seq<VehicleRow>, rows: seq<VehicleRow>): (r: seq<VehicleRow>)
    ensures forall v :: v in r <==> v in rows && IsLatestOfDriver(vs, v)
  {
    if rows == [] then []
    else (if IsLatestOfDriver(vs, rows[0]) then [rows[0]] else []) + LatestAmong(vs, rows[1..])
  }

  /** With unique ids the subquery has at most one row per driver, so the
      LEFT JOIN never repeats a driver, and that row is the vehicle the
      emergency page and the driver's own view show. */
  lemma LatestJoinAgrees(vs: seq<VehicleRow>, d: int)
    requires VehicleIdsIncreasing(vs)
    ensures forall v, w :: v in LatestPerDriver(vs) && w in LatestPerDriver(vs) && v.driverId == d && w.driverId == d ==> v == w
    ensures forall v :: v in LatestPerDriver(vs) && v.driverId == d <==> LatestVehicle(vs, d) == Some(v)
  {
    forall v, w | IsLatestOfDriver(vs, v) && IsLatestOfDriver(vs, w) && v.driverId == d && w.driverId == d
      ensures v == w
    {
      SameIdSameRow(vs, v, w);
    }
    forall v | v in vs && v.driverId == d
      ensures IsLatestOfDriver(vs, v) <==> LatestVehicle(vs, d) == Some(v)
    {
      var l := LatestVehicle(vs, d);
      if IsLatestOfDriver(vs, v) {
        SameIdSameRow(vs, v, l.value);
      }
    }
  }

  lemma SameIdSameRow(vs: seq<VehicleRow>, v: VehicleRow, w: VehicleRow)
    requires VehicleIdsIncreasing(vs)
    requires v in vs && w in vs && v.id == w.id
    ensures v == w
  {
    var i :| 0 <= i < |vs| && vs[i] == v;
    var j :| 0 <= j < |vs| && vs[j] == w;
    assert i == j;
  }
}

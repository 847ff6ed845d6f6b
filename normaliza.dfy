/**
 How the client reshapes provider payloads (`Value`/`Label` pairs) into its
 own records, and how a free-text brand or model name is matched against a
 list of them.
 */
module Normaliza {
  import opened Wrappers
  import opened PyText
  import opened Fipe
  import opened Seqs

  // ---------------------------------------------------------------- records

  /** A brand entry: `{'codigo': int(Value), 'marca': Label.strip()}`;
      `None` where `int()` raises. */
  function NormBrand(p: Pair): Option<Brand>
  {
    match ParseInt(p.value)
    case None => None
    case Some(c) => Some(Brand(c, Strip(p.text)))
  }

  /** A model entry: `{'codigo': Value, 'modelo': Label}`, both kept as sent. */
  function NormModel(m: RawModel): Model
  {
    Model(m.value, m.text)
  }

  /** `int(m['codigo'])` in `seleciona_modelo`: a number is itself, a string
      is read as `int()` reads it; `None` where `int()` raises. */
  function IntOf(v: Scalar): Option<int>
  {
    match v
    case Number(n) => Some(n)
    case Text(t) => ParseInt(t)
  }

  /** A model-year entry: `Value` "Y-F" split on `-`, year `int(Y)`, fuel
      `int(F)`, `Label` and the raw `Value` kept; `None` where Python raises
      (fewer than two parts, or a part `int()` rejects). */
  function NormYear(p: Pair): Option<ModelYear>
  {
    var parts := Split(p.value, '-');
    if |parts| < 2 then None
    else match (ParseInt(parts[0]), ParseInt(parts[1]))
      case (Some(y), Some(f)) => Some(ModelYear(y, f, p.text, p.value))
      case _ => None
  }

  /** The loop of `pega_marcas` that appends one reshaped entry per item. */
  method NormalizaMarcas(items: seq<Pair>) returns (r: Option<seq<Brand>>)
    ensures r == MapAll(items, NormBrand)
  {
    var acc: seq<Brand> := [];
    var i := 0;
    while i < |items|
      invariant 0 <= i <= |items|
      invariant MapAll(items[..i], NormBrand) == Some(acc)
    {
      var b := NormBrand(items[i]);
      if b.None? {
        MapAllPrefixFails(items, NormBrand, i);
        return None;
      }
      MapAllExtend(items, NormBrand, i, acc, b.value);
      acc := acc + [b.value];
      i := i + 1;
    }
    assert items[..i] == items;
    r := Some(acc);
  }

  /** The list `pega_modelos` builds: one entry per item, in order, with the
      item's `Value` as its code and the item's `Label` as its name, both as
      the provider sent them. Unlike a brand's name, a model's name is not
      trimmed, and its code is not converted until a model is selected. */
  function NormModels(items: seq<RawModel>): (r: seq<Model>)
    ensures |r| == |items|
    ensures forall i :: 0 <= i < |items| ==> r[i].codigo == items[i].value && r[i].modelo == items[i].text
  {
    seq(|items|, i requires 0 <= i < |items| => NormModel(items[i]))
  }

  /** The loop of `pega_modelos`. */
  method NormalizaModelos(items: seq<RawModel>) returns (r: seq<Model>)
    ensures r == NormModels(items)
  {
    r := [];
    var i := 0;
    while i < |items|
      invariant 0 <= i <= |items|
      invariant |r| == i && forall j :: 0 <= j < i ==> r[j] == NormModel(items[j])
    {
      r := r + [NormModel(items[i])];
      i := i + 1;
    }
  }

  /** The loop of `pega_anos_modelo`. */
  method NormalizaAnos(items: seq<Pair>) returns (r: Option<seq<ModelYear>>)
    ensures r == MapAll(items, NormYear)
  {
    var acc: seq<ModelYear> := [];
    var i := 0;
    while i < |items|
      invariant 0 <= i <= |items|
      invariant MapAll(items[..i], NormYear) == Some(acc)
    {
      var y := NormYear(items[i]);
      if y.None? {
        MapAllPrefixFails(items, NormYear, i);
        return None;
      }
      MapAllExtend(items, NormYear, i, acc, y.value);
      acc := acc + [y.value];
      i := i + 1;
    }
    assert items[..i] == items;
    r := Some(acc);
  }

  /** One failing element makes the whole conversion fail. */
  lemma MapAllPrefixFails<A, B>(s: seq<A>, f: A -> Option<B>, i: nat)
    requires i < |s| && f(s[i]).None?
    ensures MapAll(s, f) == None
  {
  }

  /** Converting one more element extends the converted prefix. */
  lemma MapAllExtend<A, B>(s: seq<A>, f: A -> Option<B>, i: nat, acc: seq<B>, b: B)
    requires i < |s| && MapAll(s[..i], f) == Some(acc) && f(s[i]) == Some(b)
    ensures MapAll(s[..i + 1], f) == Some(acc + [b])
  {
    assert s[..i + 1][..i] == s[..i];
  }

  /** The brand code the provider sends as text reads back as that code, and
      the brand name loses its surrounding whitespace. */
  lemma BrandRoundTrip(c: int, pad: string, name: string)
    requires AllSpace(pad)
    ensures NormBrand(Pair(ShowInt(c) + pad, name)) == Some(Brand(c, Strip(name)))
  {
    ParseShowPadded(c, pad);
  }

  /** A model code reads back as the same integer whether the provider sent
      it as a number or as its decimal text, with trailing whitespace. */
  lemma ModelCodeRoundTrip(c: int, pad: string)
    requires AllSpace(pad)
    ensures IntOf(Number(c)) == Some(c)
    ensures IntOf(Text(ShowInt(c) + pad)) == Some(c)
  {
    ParseShowPadded(c, pad);
  }

  /** A model-year value "Y-F" written from a non-negative year and fuel is
      read back as that year and fuel. */
  lemma YearRoundTrip(y: int, f: int, name: string)
    requires y >= 0 && f >= 0
    ensures NormYear(Pair(ShowInt(y) + "-" + ShowInt(f), name))
         == Some(ModelYear(y, f, name, ShowInt(y) + "-" + ShowInt(f)))
  {
    var a := ShowInt(y);
    var b := ShowInt(f);
    assert '-' !in a by { assert forall i :: 0 <= i < |a| ==> IsDigit(a[i]); }
    assert '-' !in b by { assert forall i :: 0 <= i < |b| ==> IsDigit(b[i]); }
    assert a + "-" + b == a + ['-'] + b;
    SplitAtFirst(a, '-', b);
    SplitNoSeparator(b, '-');
    ParseShow(y);
    ParseShow(f);
  }

  /** A model-year value without a `-` is rejected. */
  lemma YearWithoutDashRejected(v: string, name: string)
    requires '-' !in v
    ensures NormYear(Pair(v, name)) == None
  {
    SplitNoSeparator(v, '-');
  }

  // ---------------------------------------------------------------- matching

  /** The query as the setters prepare it: `s.strip().lower()`. */
  function Query(s: string): string
  {
    Lower(Strip(s))
  }

  /** `name.lower() == query or query in name.lower()`. */
  predicate Matches(name: string, query: string)
  {
    Lower(name) == query || IsSubstring(query, Lower(name))
  }

  function BrandMatcher(query: string): Brand -> bool
  {
    (b: Brand) => Matches(b.marca, query)
  }

  function ModelMatcher(query: string): Model -> bool
  {
    (m: Model) => Matches(m.modelo, query)
  }

  /** The loop of `seleciona_marca`: the position of the first brand whose
      lowercased name is the query or contains it. */
  method PrimeiraMarca(brands: seq<Brand>, query: string) returns (r: Option<nat>)
    ensures r == FirstIndex(brands, BrandMatcher(query))
  {
    var i := 0;
    while i < |brands|
      invariant 0 <= i <= |brands|
      invariant forall j :: 0 <= j < i ==> !BrandMatcher(query)(brands[j])
    {
      var name := Lower(brands[i].marca);
      if name == query || IsSubstring(query, name) {
        FirstIndexUnique(brands, BrandMatcher(query), i);
        return Some(i);
      }
      i := i + 1;
    }
    return None;
  }

  /** The loop of `seleciona_modelo`. */
  method PrimeiroModelo(models: seq<Model>, query: string) returns (r: Option<nat>)
    ensures r == FirstIndex(models, ModelMatcher(query))
  {
    var i := 0;
    while i < |models|
      invariant 0 <= i <= |models|
      invariant forall j :: 0 <= j < i ==> !ModelMatcher(query)(models[j])
    {
      var name := Lower(models[i].modelo);
      if name == query || IsSubstring(query, name) {
        FirstIndexUnique(models, ModelMatcher(query), i);
        return Some(i);
      }
      i := i + 1;
    }
    return None;
  }

  /** Equality with the query is subsumed by containing it: the setters in
      effect select the first name that contains the query. */
  lemma MatchesIsContainment(name: string, query: string)
    ensures Matches(name, query) <==> IsSubstring(query, Lower(name))
  {
    if Lower(name) == query {
      SubstringBasics(query);
    }
  }

  /** An empty (or all-whitespace) query matches the very first entry. */
  lemma EmptyQuerySelectsFirst(brands: seq<Brand>, s: string)
    requires |brands| > 0 && Query(s) == ""
    ensures FirstIndex(brands, BrandMatcher(Query(s))) == Some(0)
  {
    SubstringBasics(Lower(brands[0].marca));
    assert BrandMatcher(Query(s))(brands[0]);
  }

  /** Asking for a model by its listed name, whitespace and case as listed,
      selects that model or an earlier one whose name contains the query. */
  lemma ExactNameSelected(models: seq<Model>, k: nat)
    requires k < |models|
    ensures var q := Query(models[k].modelo);
            var r := FirstIndex(models, ModelMatcher(q));
            r.Some? && r.value <= k && IsSubstring(q, Lower(models[r.value].modelo))
  {
    var name := models[k].modelo;
    var q := Query(name);
    QueryIsStrippedLower(name);
    StripIsSubstring(Lower(name));
    MatchesIsContainment(name, q);
    assert ModelMatcher(q)(models[k]);
    var r := FirstIndex(models, ModelMatcher(q));
    MatchesIsContainment(models[r.value].modelo, q);
  }

  lemma LowerCharKeepsSpace(c: char)
    ensures IsSpace(LowerChar(c)) <==> IsSpace(c)
  {
  }

  lemma {:induction false} LowerTrimLeft(s: string)
    ensures Lower(TrimLeft(s)) == TrimLeft(Lower(s))
    decreases |s|
  {
    if |s| > 0 {
      var l := Lower(s);
      LowerCharKeepsSpace(s[0]);
      assert l[0] == LowerChar(s[0]);
      if IsSpace(s[0]) {
        assert l[1..] == Lower(s[1..]);
        LowerTrimLeft(s[1..]);
        assert TrimLeft(l) == TrimLeft(l[1..]);
      } else {
        assert TrimLeft(l) == l;
      }
    }
  }

  lemma {:induction false} LowerTrimRight(s: string)
    ensures Lower(TrimRight(s)) == TrimRight(Lower(s))
    decreases |s|
  {
    if |s| > 0 {
      var l := Lower(s);
      LowerCharKeepsSpace(s[|s| - 1]);
      assert l[|l| - 1] == LowerChar(s[|s| - 1]);
      if IsSpace(s[|s| - 1]) {
        assert l[..|l| - 1] == Lower(s[..|s| - 1]);
        LowerTrimRight(s[..|s| - 1]);
        assert TrimRight(l) == TrimRight(l[..|l| - 1]);
      } else {
        assert TrimRight(l) == l;
      }
    }
  }

  /** Stripping and lowercasing commute. */
  lemma QueryIsStrippedLower(s: string)
    ensures Query(s) == Strip(Lower(s))
  {
    LowerTrimLeft(s);
    LowerTrimRight(TrimLeft(s));
  }

  /** Searching is case-insensitive: two spellings that agree after
      lowercasing give the same query, hence select the same entry. */
  lemma QueryIgnoresCase(a: string, b: string)
    requires Lower(a) == Lower(b)
    ensures Query(a) == Query(b)
  {
    QueryIsStrippedLower(a);
    QueryIsStrippedLower(b);
  }

  // ---------------------------------------------------------------- model years

  /** `_verifica_ano_modelo`: some entry carries the year and the fuel. */
  predicate HasYear(years: seq<ModelYear>, ano: int, combustivel: int)
  {
    exists i :: 0 <= i < |years| && years[i].ano == ano && years[i].combustivel == combustivel
  }

  /** The loop of `_verifica_ano_modelo`. */
  method ContemAno(years: seq<ModelYear>, ano: int, combustivel: int) returns (found: bool)
    ensures found == HasYear(years, ano, combustivel)
  {
    var i := 0;
    while i < |years|
      invariant 0 <= i <= |years|
      invariant forall j :: 0 <= j < i ==> !(years[j].ano == ano && years[j].combustivel == combustivel)
    {
      if years[i].ano == ano && combustivel == years[i].combustivel {
        return true;
      }
      i := i + 1;
    }
    return false;
  }
}

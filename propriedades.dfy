/**
 What the client promises, stated over the session functions of `Sessao`:
 the setters' checks, the order of the query guards, the two-tier lookup
 (memo dict, then external store, then provider), the price pre-checks and
 the invariants every operation keeps.
 */
module Propriedades {
  import opened Wrappers
  import opened PyText
  import opened Fipe
  import opened Seqs
  import opened Chaves
  import opened Referencia
  import opened Normaliza
  import opened Sessao

  // ---------------------------------------------------------------- setters

  /** A vehicle type outside {1, 2, 3} is an `IncorrectValue` and changes
      nothing; one of them is stored and the setter answers `True`. */
  lemma VehicleTypeChecked(s: State, tipo: int)
    ensures !IsVehicleType(tipo) ==> SelectVehicleType(s, tipo) == Step(Err(IncorrectValue), s, [])
    ensures IsVehicleType(tipo) ==>
              && SelectVehicleType(s, tipo).result == Ok(true)
              && SelectVehicleType(s, tipo).next.ctx.tipoVeiculo == Some(tipo)
              && SelectVehicleType(s, tipo).next == s.(ctx := s.ctx.(tipoVeiculo := Some(tipo)))
              && SelectVehicleType(s, tipo).sent == []
  {
  }

  /** The reset clears the five selection codes and keeps the connection,
      the reference table, the memo dicts and the store. */
  lemma ResetClears(s: State)
    ensures var r := Reset(s);
            && r.ctx.referencia.None? && r.ctx.tipoVeiculo.None? && r.ctx.marca.None?
            && r.ctx.modelo.None? && r.ctx.anoModelo.None?
            && r.ctx.connected == s.ctx.connected
            && r.tabela == s.tabela && r.memo == s.memo && r.store == s.store
  {
  }

  /** After a reset every query fails at its first guard, without a request:
      `NotConnected` without a connection, `IncorrectValue` otherwise. */
  lemma ResetBlocksQueries(env: Env, s: State, ano: int, combustivel: int)
    ensures var r := Reset(s);
            var e := if s.ctx.connected then IncorrectValue else NotConnected;
            && LookupBrands(env, r) == Step(Err(e), r, [])
            && LookupModels(env, r) == Step(Err(e), r, [])
            && LookupYears(env, r) == Step(Err(e), r, [])
            && QueryPrice(env, r, ano, combustivel) == Step(Err(e), r, [])
  {
  }

  // ---------------------------------------------------------------- guards

  /** The search conditions are checked in the order connection, reference,
      vehicle type; the brand and the model guards come after them. */
  lemma GuardOrder(ctx: Context)
    ensures Conditions(ctx) == Fail(NotConnected) <==> !ctx.connected
    ensures Conditions(ctx) == Fail(IncorrectValue) <==>
              ctx.connected && (!IsSet(ctx.referencia) || !IsSet(ctx.tipoVeiculo))
    ensures Conditions(ctx) == Pass <==> ctx.connected && IsSet(ctx.referencia) && IsSet(ctx.tipoVeiculo)
    ensures BrandGuard(ctx) == Pass <==> Conditions(ctx) == Pass && IsSet(ctx.marca)
    ensures ModelGuard(ctx) == Pass <==> BrandGuard(ctx) == Pass && IsSet(ctx.modelo)
    ensures Conditions(ctx).Fail? ==> BrandGuard(ctx) == Conditions(ctx) && ModelGuard(ctx) == Conditions(ctx)
  {
  }

  /** A query whose guard fails raises the guard's error, changes nothing and
      sends nothing. */
  lemma GuardsBlock(env: Env, s: State, ano: int, combustivel: int)
    ensures Conditions(s.ctx).Fail? ==> LookupBrands(env, s) == Step(Err(Conditions(s.ctx).error), s, [])
    ensures BrandGuard(s.ctx).Fail? ==> LookupModels(env, s) == Step(Err(BrandGuard(s.ctx).error), s, [])
    ensures ModelGuard(s.ctx).Fail? ==> LookupYears(env, s) == Step(Err(ModelGuard(s.ctx).error), s, [])
    ensures ModelGuard(s.ctx).Fail? ==>
              QueryPrice(env, s, ano, combustivel) == Step(Err(ModelGuard(s.ctx).error), s, [])
  {
  }

  // ---------------------------------------------------------------- what lookups keep

  /** No lookup changes the selection or the reference table. */
  lemma BrandsKeepSelection(env: Env, s: State)
    ensures LookupBrands(env, s).next.ctx == s.ctx && LookupBrands(env, s).next.tabela == s.tabela
  {
  }

  lemma ModelsKeepSelection(env: Env, s: State)
    ensures LookupModels(env, s).next.ctx == s.ctx && LookupModels(env, s).next.tabela == s.tabela
  {
  }

  lemma YearsKeepSelection(env: Env, s: State)
    ensures LookupYears(env, s).next.ctx == s.ctx && LookupYears(env, s).next.tabela == s.tabela
  {
  }

  lemma CheckYearKeepsSelection(env: Env, s: State, ano: int, combustivel: int)
    ensures CheckYear(env, s, ano, combustivel).next.ctx == s.ctx
    ensures CheckYear(env, s, ano, combustivel).next.tabela == s.tabela
  {
    YearsKeepSelection(env, s);
  }

  /** Once the checks pass, the answer and the requests are those of the last
      step, after the model-year lookup's. */
  lemma QueryPriceListed(env: Env, s: State, ano: int, combustivel: int)
    requires ModelGuard(s.ctx) == Pass && IsFuel(combustivel)
    requires CheckYear(env, s, ano, combustivel).result == Ok(true)
    ensures var v := CheckYear(env, s, ano, combustivel);
            var p := PriceAfterChecks(env, v.next, ano, combustivel);
            && QueryPrice(env, s, ano, combustivel).result == p.result
            && QueryPrice(env, s, ano, combustivel).next == p.next
            && QueryPrice(env, s, ano, combustivel).sent == v.sent + p.sent
  {
  }

  /** When the model-year check fails, so does the query, with its state and
      its requests. */
  lemma QueryPriceUnlisted(env: Env, s: State, ano: int, combustivel: int)
    requires ModelGuard(s.ctx) == Pass && IsFuel(combustivel)
    requires CheckYear(env, s, ano, combustivel).result != Ok(true)
    ensures var v := CheckYear(env, s, ano, combustivel);
            && QueryPrice(env, s, ano, combustivel).result
               == (if v.result.Err? then Err(v.result.error) else Err(IncorrectValue))
            && QueryPrice(env, s, ano, combustivel).next == v.next
            && QueryPrice(env, s, ano, combustivel).sent == v.sent
  {
  }

  lemma PriceKeepsSelection(env: Env, s: State, ano: int, combustivel: int)
    ensures QueryPrice(env, s, ano, combustivel).next.ctx == s.ctx
    ensures QueryPrice(env, s, ano, combustivel).next.tabela == s.tabela
  {
    CheckYearKeepsSelection(env, s, ano, combustivel);
    if ModelGuard(s.ctx) == Pass && IsFuel(combustivel) {
      var v := CheckYear(env, s, ano, combustivel);
      if v.result == Ok(true) {
        QueryPriceListed(env, s, ano, combustivel);
        PriceAfterChecksSends(env, v.next, ano, combustivel);
      } else {
        QueryPriceUnlisted(env, s, ano, combustivel);
      }
    }
  }


  /** Each lookup sends at most one request, and only of its own kind. */
  lemma LookupRequests(env: Env, s: State)
    ensures |LookupBrands(env, s).sent| <= 1 && forall q :: q in LookupBrands(env, s).sent ==> q.BrandsRequest?
    ensures |LookupModels(env, s).sent| <= 1 && forall q :: q in LookupModels(env, s).sent ==> q.ModelsRequest?
    ensures |LookupYears(env, s).sent| <= 1 && forall q :: q in LookupYears(env, s).sent ==> q.YearsRequest?
  {
    YearsLookupRequest(env, s);
  }

  lemma YearsLookupRequest(env: Env, s: State)
    ensures |LookupYears(env, s).sent| <= 1 && forall q :: q in LookupYears(env, s).sent ==> q.YearsRequest?
    ensures forall ano, combustivel :: CheckYear(env, s, ano, combustivel).sent == LookupYears(env, s).sent
  {
  }

  // ---------------------------------------------------------------- memoisation

  /** A scope already in the memo dict is answered from it, without a request
      and without a change. */
  lemma MemoHit(env: Env, s: State)
    ensures Conditions(s.ctx) == Pass && ChaveMarcas(s.ctx.tipoVeiculo.value, s.ctx.referencia.value) in s.memo.marcas
            ==> (LookupBrands(env, s)
                 == Step(Ok(s.memo.marcas[ChaveMarcas(s.ctx.tipoVeiculo.value, s.ctx.referencia.value)]), s, []))
    ensures BrandGuard(s.ctx) == Pass
            && ChaveModelos(s.ctx.tipoVeiculo.value, s.ctx.referencia.value, s.ctx.marca.value) in s.memo.modelos
            ==> (LookupModels(env, s)
                 == Step(Ok(s.memo.modelos[ChaveModelos(s.ctx.tipoVeiculo.value, s.ctx.referencia.value,
                                                         s.ctx.marca.value)]), s, []))
  {
  }

  /** A successful lookup leaves its result in the memo dict under its key. */
  lemma BrandsMemoised(env: Env, s: State)
    ensures var r := LookupBrands(env, s);
            r.result.Ok? ==>
              r.next.memo.marcas == s.memo.marcas[ChaveMarcas(s.ctx.tipoVeiculo.value, s.ctx.referencia.value)
                                                  := r.result.value]
  {
  }

  lemma ModelsMemoised(env: Env, s: State)
    ensures var r := LookupModels(env, s);
            r.result.Ok? ==>
              r.next.memo.modelos == s.memo.modelos[ChaveModelos(s.ctx.tipoVeiculo.value, s.ctx.referencia.value,
                                                                 s.ctx.marca.value) := r.result.value]
  {
  }

  lemma YearsMemoised(env: Env, s: State)
    ensures var r := LookupYears(env, s);
            r.result.Ok? ==>
              r.next.memo.anosModelo == s.memo.anosModelo[ChaveAnos(s.ctx.tipoVeiculo.value, s.ctx.referencia.value,
                                                                    s.ctx.marca.value, s.ctx.modelo.value)
                                                          := YearsPayload(r.result.value)]
  {
    var r := LookupYears(env, s);
    if r.result.Ok? {
      var chave := ChaveAnos(s.ctx.tipoVeiculo.value, s.ctx.referencia.value, s.ctx.marca.value, s.ctx.modelo.value);
      if chave in s.memo.anosModelo {
        assert s.memo.anosModelo[chave] == YearsPayload(r.result.value);
        assert s.memo.anosModelo[chave := YearsPayload(r.result.value)] == s.memo.anosModelo;
      }
    }
  }

  /** Asking twice in the same context: the second call returns the same
      value, sends nothing and changes nothing. */
  lemma BrandsIdempotent(env: Env, s: State)
    ensures var r := LookupBrands(env, s); r.result.Ok? ==> LookupBrands(env, r.next) == Step(r.result, r.next, [])
  {
    BrandsKeepSelection(env, s);
    BrandsMemoised(env, s);
  }

  lemma ModelsIdempotent(env: Env, s: State)
    ensures var r := LookupModels(env, s); r.result.Ok? ==> LookupModels(env, r.next) == Step(r.result, r.next, [])
  {
    ModelsKeepSelection(env, s);
    ModelsMemoised(env, s);
  }

  lemma YearsIdempotent(env: Env, s: State)
    ensures var r := LookupYears(env, s); r.result.Ok? ==> LookupYears(env, r.next) == Step(r.result, r.next, [])
  {
    YearsKeepSelection(env, s);
    YearsMemoised(env, s);
  }

  /** A stored empty list is a miss: the lookup asks the provider. */
  lemma CachedEmptyIsMiss(env: Env, s: State)
    requires Conditions(s.ctx) == Pass
    requires ChaveMarcas(s.ctx.tipoVeiculo.value, s.ctx.referencia.value) !in s.memo.marcas
    requires CacheGet(env, s.store, ChaveMarcas(s.ctx.tipoVeiculo.value, s.ctx.referencia.value))
          == Some(BrandsPayload([]))
    ensures LookupBrands(env, s).sent == [BrandsRequest(s.ctx.referencia.value, s.ctx.tipoVeiculo.value)]
  {
  }

  /** A stored empty reference table is a miss as well. */
  lemma CachedEmptyTableIsMiss(env: Env, s: State, today: Date)
    requires ValidEnv(env) && ValidDate(today) && s.ctx.connected
    requires CacheGet(env, s.store, CHAVE_TABELA) == Some(TablePayload([]))
    ensures RefreshTable(env, s, today).sent == [TableRequest]
  {
  }

  // ---------------------------------------------------------------- the store

  /** A store that can be read and written keeps what it was given. */
  lemma CacheRoundTrip(env: Env, store: map<string, Payload>, chave: string, v: Payload)
    requires env.cacheOn && RedisKey(chave) !in env.unwritable && RedisKey(chave) !in env.unreadable
    ensures CacheGet(env, CachePut(env, store, chave, v), chave) == Some(v)
  {
  }

  /** Writing under one key leaves every other key as it was. */
  lemma CachePutFrames(env: Env, store: map<string, Payload>, chave: string, other: string, v: Payload)
    requires other != chave
    ensures CacheGet(env, CachePut(env, store, chave, v), other) == CacheGet(env, store, other)
  {
    RedisKeyInjective(chave, other);
  }

  /** Brands fetched from the provider and written to a working store serve a
      later session that starts with an empty memo: it asks nothing. */
  lemma StoreServesNewSession(env: Env, s: State, s2: State)
    requires env.cacheOn && Conditions(s.ctx) == Pass
    requires var k := RedisKey(ChaveMarcas(s.ctx.tipoVeiculo.value, s.ctx.referencia.value));
             k !in env.unwritable && k !in env.unreadable
    requires var r := LookupBrands(env, s); r.result.Ok? && |r.sent| == 1 && |r.result.value| > 0
    requires s2.ctx == s.ctx && s2.memo.marcas == map[] && s2.store == LookupBrands(env, s).next.store
    ensures LookupBrands(env, s2).result == LookupBrands(env, s).result && LookupBrands(env, s2).sent == []
  {
    var chave := ChaveMarcas(s.ctx.tipoVeiculo.value, s.ctx.referencia.value);
    var r := LookupBrands(env, s);
    var bs := r.result.value;
    assert r.next.store == CachePut(env, s.store, chave, BrandsPayload(bs));
    CacheRoundTrip(env, s.store, chave, BrandsPayload(bs));
    assert CacheGet(env, s2.store, chave) == Some(BrandsPayload(bs));
  }

  // ---------------------------------------------------------------- price

  /** With a fuel outside {1, 2, 3} the price query fails before anything
      is looked up. */
  lemma FuelCheckedFirst(env: Env, s: State, ano: int, combustivel: int)
    requires ModelGuard(s.ctx) == Pass && !IsFuel(combustivel)
    ensures QueryPrice(env, s, ano, combustivel) == Step(Err(IncorrectValue), s, [])
  {
  }

  /** A pair (year, fuel) missing from the model years listed for the
      selected model is an `IncorrectValue`, raised before a price request. */
  lemma UnlistedYearRejected(env: Env, s: State, ano: int, combustivel: int)
    requires ModelGuard(s.ctx) == Pass && IsFuel(combustivel)
    requires LookupYears(env, s).result.Ok? && !HasYear(LookupYears(env, s).result.value, ano, combustivel)
    ensures QueryPrice(env, s, ano, combustivel)
         == Step(Err(IncorrectValue), LookupYears(env, s).next, LookupYears(env, s).sent)
    ensures forall q :: q in QueryPrice(env, s, ano, combustivel).sent ==> !q.PriceRequest?
  {
    LookupRequests(env, s);
  }

  /** Every (year, fuel) pair the model-years lookup lists passes the
      model-year check, which keeps the selection; with a valid fuel the price
      query then goes on to its last step. The converse of
      `UnlistedYearRejected`. */
  lemma ListedYearAccepted(env: Env, s: State, ys: seq<ModelYear>, k: nat)
    requires LookupYears(env, s).result == Ok(ys) && k < |ys|
    ensures CheckYear(env, s, ys[k].ano, ys[k].combustivel).result == Ok(true)
    ensures var y := LookupYears(env, s);
            && y.next.ctx == s.ctx
            && (IsFuel(ys[k].combustivel) ==>
                  var p := PriceAfterChecks(env, y.next, ys[k].ano, ys[k].combustivel);
                  QueryPrice(env, s, ys[k].ano, ys[k].combustivel) == Step(p.result, p.next, y.sent + p.sent))
  {
    YearsKeepSelection(env, s);
    assert HasYear(ys, ys[k].ano, ys[k].combustivel);
  }

  /** The last step sends at most the price request, for the year and fuel
      asked and with the vehicle name of the `tipos` table. */
  lemma PriceAfterChecksSends(env: Env, t: State, ano: int, combustivel: int)
    requires ModelGuard(t.ctx) == Pass
    ensures var p := PriceAfterChecks(env, t, ano, combustivel);
            && |p.sent| <= 1 && p.next.ctx == t.ctx && p.next.tabela == t.tabela
            && forall q :: q in p.sent ==>
                 && q.PriceRequest? && q.anoModelo == ano && q.combustivel == combustivel
                 && IsVehicleType(q.tipoVeiculo) && q.tipoNome == VehicleName(q.tipoVeiculo)
  {
  }

  /** A price request is sent only for a valid fuel and a (year, fuel) pair the
      provider lists for the model, and it is the query's last request, for
      that year and fuel. */
  lemma PriceRequestedOnlyWhenListed(env: Env, s: State, ano: int, combustivel: int)
    requires exists q :: q in QueryPrice(env, s, ano, combustivel).sent && q.PriceRequest?
    ensures IsFuel(combustivel)
    ensures LookupYears(env, s).result.Ok? && HasYear(LookupYears(env, s).result.value, ano, combustivel)
    ensures var sent := QueryPrice(env, s, ano, combustivel).sent;
            && |sent| > 0 && sent[|sent| - 1].PriceRequest?
            && sent[|sent| - 1].anoModelo == ano && sent[|sent| - 1].combustivel == combustivel
  {
    PriceRequestPassedChecks(env, s, ano, combustivel);
    var v := CheckYear(env, s, ano, combustivel);
    QueryPriceListed(env, s, ano, combustivel);
    YearsLookupRequest(env, s);
    CheckYearKeepsSelection(env, s, ano, combustivel);
    PriceRequestIsLast(env, v.next, ano, combustivel, v.sent, QueryPrice(env, s, ano, combustivel).sent);
  }

  /** After the model-year request, a price request can only come from the
      last step, which ends the requests with it. */
  lemma PriceRequestIsLast(env: Env, t: State, ano: int, combustivel: int, before: seq<Request>,
                            sent: seq<Request>)
    requires ModelGuard(t.ctx) == Pass
    requires forall q :: q in before ==> q.YearsRequest?
    requires sent == before + PriceAfterChecks(env, t, ano, combustivel).sent
    requires exists q :: q in sent && q.PriceRequest?
    ensures && |sent| > 0 && sent[|sent| - 1].PriceRequest?
            && sent[|sent| - 1].anoModelo == ano && sent[|sent| - 1].combustivel == combustivel
  {
    var p := PriceAfterChecks(env, t, ano, combustivel);
    PriceAfterChecksSends(env, t, ano, combustivel);
    if p.sent == [] {
      assert false;
    }
    assert (before + p.sent)[|before + p.sent| - 1] == p.sent[0];
  }

  /** A query that sends a price request has passed every check before it. */
  lemma PriceRequestPassedChecks(env: Env, s: State, ano: int, combustivel: int)
    requires exists q :: q in QueryPrice(env, s, ano, combustivel).sent && q.PriceRequest?
    ensures ModelGuard(s.ctx) == Pass && IsFuel(combustivel)
    ensures CheckYear(env, s, ano, combustivel).result == Ok(true)
    ensures LookupYears(env, s).result.Ok? && HasYear(LookupYears(env, s).result.value, ano, combustivel)
  {
    var q :| q in QueryPrice(env, s, ano, combustivel).sent && q.PriceRequest?;
    UncheckedSendsNothing(env, s, ano, combustivel);
    UnlistedSendsOnlyYears(env, s, ano, combustivel);
  }

  /** Without a brand, a model or a valid fuel nothing is sent. */
  lemma UncheckedSendsNothing(env: Env, s: State, ano: int, combustivel: int)
    ensures ModelGuard(s.ctx).Fail? || !IsFuel(combustivel) ==> QueryPrice(env, s, ano, combustivel).sent == []
  {
  }

  /** A price query whose model-year check fails sends at most the model-year
      request. */
  lemma UnlistedSendsOnlyYears(env: Env, s: State, ano: int, combustivel: int)
    ensures CheckYear(env, s, ano, combustivel).result != Ok(true) ==>
              forall q :: q in QueryPrice(env, s, ano, combustivel).sent ==> q.YearsRequest?
  {
    YearsLookupRequest(env, s);
  }

  /** The source's quirk: a price found in the store is memoised in
      `_anos_modelo`, not in `_preco`, so the price memo stays without it. */
  lemma StoredPriceGoesToAnosModelo(env: Env, s: State, ano: int, combustivel: int, d: PriceData)
    requires ModelGuard(s.ctx) == Pass && IsFuel(combustivel)
    requires var ctx := s.ctx;
             var ka := ChaveAnos(ctx.tipoVeiculo.value, ctx.referencia.value, ctx.marca.value, ctx.modelo.value);
             ka in s.memo.anosModelo && s.memo.anosModelo[ka].YearsPayload?
             && HasYear(s.memo.anosModelo[ka].years, ano, combustivel)
    requires var ctx := s.ctx;
             var kp := ChavePreco(ctx.tipoVeiculo.value, ctx.referencia.value, ctx.marca.value, ctx.modelo.value,
                                  ano, combustivel);
             kp !in s.memo.preco && CacheGet(env, s.store, kp) == Some(PricePayload(d)) && |d| > 0
    ensures var ctx := s.ctx;
            var kp := ChavePreco(ctx.tipoVeiculo.value, ctx.referencia.value, ctx.marca.value, ctx.modelo.value,
                                 ano, combustivel);
            (QueryPrice(env, s, ano, combustivel)
             == Step(Ok(d), s.(memo := s.memo.(anosModelo := s.memo.anosModelo[kp := PricePayload(d)])), []))
  {
  }

  /** The last step, repeated on the state it leaves, gives the same price,
      changes nothing and sends nothing. */
  lemma PriceAfterChecksIdempotent(env: Env, t: State, ano: int, combustivel: int)
    requires ModelGuard(t.ctx) == Pass
    ensures var p := PriceAfterChecks(env, t, ano, combustivel);
            p.result.Ok? ==> PriceAfterChecks(env, p.next, ano, combustivel) == Step(p.result, p.next, [])
  {
    var p := PriceAfterChecks(env, t, ano, combustivel);
    var kp := ChavePreco(t.ctx.tipoVeiculo.value, t.ctx.referencia.value, t.ctx.marca.value,
                         t.ctx.modelo.value, ano, combustivel);
    var c := CacheGet(env, t.store, kp);
    if p.result.Ok? && kp !in t.memo.preco && c.Some? && c.value.PricePayload? && Truthy(c.value) {
      assert p.next.memo.anosModelo[kp := c.value] == p.next.memo.anosModelo;
    }
  }

  /** Asking for the same price twice: the second query returns the same
      price and sends nothing (from the price memo, or again from the store
      when the price came from there, which holds while the store and its
      failing keys stay as they were between the two queries). */
  lemma PriceIdempotent(env: Env, s: State, ano: int, combustivel: int)
    ensures var r := QueryPrice(env, s, ano, combustivel);
            r.result.Ok? ==> QueryPrice(env, r.next, ano, combustivel) == Step(r.result, r.next, [])
  {
    var r := QueryPrice(env, s, ano, combustivel);
    if r.result.Ok? {
      PriceOkPassedChecks(env, s, ano, combustivel);
      QueryPriceListed(env, s, ano, combustivel);
      CheckYearKeepsSelection(env, s, ano, combustivel);
      var v := CheckYear(env, s, ano, combustivel);
      var t := v.next;
      var p := PriceAfterChecks(env, t, ano, combustivel);
      PriceAfterChecksSends(env, t, ano, combustivel);
      YearsMemoised(env, s);
      var ctx := s.ctx;
      var ka := ChaveAnos(ctx.tipoVeiculo.value, ctx.referencia.value, ctx.marca.value, ctx.modelo.value);
      var kp := ChavePreco(ctx.tipoVeiculo.value, ctx.referencia.value, ctx.marca.value, ctx.modelo.value,
                           ano, combustivel);
      assert kp != ka by { assert |kp| > |ka|; }
      var ys := LookupYears(env, s).result.value;
      assert t.memo.anosModelo[ka] == YearsPayload(ys);
      assert p.next.memo.anosModelo[ka] == YearsPayload(ys);
      assert LookupYears(env, r.next) == Step(Ok(ys), r.next, []);
      assert CheckYear(env, r.next, ano, combustivel) == Step(Ok(true), r.next, []);
      PriceAfterChecksIdempotent(env, t, ano, combustivel);
      QueryPriceListed(env, r.next, ano, combustivel);
    }
  }

  /** A query that answers with a price has passed every check before it. */
  lemma PriceOkPassedChecks(env: Env, s: State, ano: int, combustivel: int)
    requires QueryPrice(env, s, ano, combustivel).result.Ok?
    ensures ModelGuard(s.ctx) == Pass && IsFuel(combustivel)
    ensures CheckYear(env, s, ano, combustivel).result == Ok(true)
  {
  }

  // ---------------------------------------------------------------- text selection

  /** `seleciona_marca` stores the code of the first brand, in provider order,
      whose lowercased name is or contains the trimmed, lowercased query; when
      none does it raises `IncorrectValue` and keeps the selected brand. */
  lemma SelectBrandFirstMatch(env: Env, s: State, marca: string)
    ensures var b := LookupBrands(env, s);
            var r := SelectBrand(env, s, marca);
            b.result.Ok? ==>
              var bs := b.result.value;
              var q := Query(marca);
              && (r.result.Ok? <==> exists i :: 0 <= i < |bs| && Matches(bs[i].marca, q))
              && (r.result.Ok? ==>
                    (&& r.result.value
                     && exists i :: 0 <= i < |bs| && Matches(bs[i].marca, q)
                                    && (forall j :: 0 <= j < i ==> !Matches(bs[j].marca, q))
                                    && r.next.ctx == s.ctx.(marca := Some(bs[i].codigo))))
              && (r.result.Err? ==> r.result == Err(IncorrectValue) && r.next.ctx == s.ctx)
    ensures var b := LookupBrands(env, s);
            b.result.Err? ==> SelectBrand(env, s, marca) == Step(Err(b.result.error), b.next, b.sent)
  {
    BrandsKeepSelection(env, s);
    var b := LookupBrands(env, s);
    if b.result.Ok? {
      var bs := b.result.value;
      var q := Query(marca);
      var p := BrandMatcher(q);
      match FirstIndex(bs, p)
      case None =>
        assert SelectBrand(env, s, marca) == Step(Err(IncorrectValue), b.next, b.sent);
        assert forall i :: 0 <= i < |bs| ==> !Matches(bs[i].marca, q) by {
          assert forall i :: 0 <= i < |bs| ==> !p(bs[i]);
        }
      case Some(i) =>
        assert SelectBrand(env, s, marca) == Step(Ok(true), b.next.(ctx := b.next.ctx.(marca := Some(bs[i].codigo))), b.sent);
        assert Matches(bs[i].marca, q) by { assert p(bs[i]); }
        assert forall j :: 0 <= j < i ==> !Matches(bs[j].marca, q) by {
          assert forall j :: 0 <= j < i ==> !p(bs[j]);
        }
    }
  }


  /** The same rule for `seleciona_modelo`, where the first match's code
      then goes through `int()`: a code it reads is stored, one it cannot read
      raises (`Malformed`) and leaves the selection as it was. */
  lemma SelectModelFirstMatch(env: Env, s: State, modelo: string)
    ensures var m := LookupModels(env, s);
            var r := SelectModel(env, s, modelo);
            m.result.Ok? ==>
              var ms := m.result.value;
              var q := Query(modelo);
              && (r.result != Err(IncorrectValue) <==> exists i :: 0 <= i < |ms| && Matches(ms[i].modelo, q))
              && (r.result != Err(IncorrectValue) ==>
                    exists i :: 0 <= i < |ms| && Matches(ms[i].modelo, q)
                                && (forall j :: 0 <= j < i ==> !Matches(ms[j].modelo, q))
                                && (if IntOf(ms[i].codigo).Some?
                                    then r.result == Ok(true) && r.next.ctx == s.ctx.(modelo := IntOf(ms[i].codigo))
                                    else r.result == Err(Malformed) && r.next.ctx == s.ctx))
              && (r.result == Err(IncorrectValue) ==> r.next.ctx == s.ctx)
    ensures var m := LookupModels(env, s);
            m.result.Err? ==> SelectModel(env, s, modelo) == Step(Err(m.result.error), m.next, m.sent)
  {
    ModelsKeepSelection(env, s);
    var m := LookupModels(env, s);
    if m.result.Ok? {
      var ms := m.result.value;
      var q := Query(modelo);
      var p := ModelMatcher(q);
      match FirstIndex(ms, p)
      case None =>
        assert SelectModel(env, s, modelo) == Step(Err(IncorrectValue), m.next, m.sent);
        assert forall i :: 0 <= i < |ms| ==> !Matches(ms[i].modelo, q) by {
          assert forall i :: 0 <= i < |ms| ==> !p(ms[i]);
        }
      case Some(i) =>
        if IntOf(ms[i].codigo).Some? {
          assert SelectModel(env, s, modelo)
              == Step(Ok(true), m.next.(ctx := m.next.ctx.(modelo := IntOf(ms[i].codigo))), m.sent);
        } else {
          assert SelectModel(env, s, modelo) == Step(Err(Malformed), m.next, m.sent);
        }
        assert Matches(ms[i].modelo, q) by { assert p(ms[i]); }
        assert forall j :: 0 <= j < i ==> !Matches(ms[j].modelo, q) by {
          assert forall j :: 0 <= j < i ==> !p(ms[j]);
        }
    }
  }

  /** Asking for a model by a name the models lookup lists, as listed, never
      fails to find one; it selects a model unless the code of the model found
      (that one or an earlier one whose name contains the query) is one
      `int()` cannot read. */
  lemma ListedModelSelected(env: Env, s: State, ms: seq<Model>, k: nat)
    requires LookupModels(env, s).result == Ok(ms) && k < |ms|
    ensures var r := SelectModel(env, s, ms[k].modelo).result;
            r == Ok(true) || r == Err(Malformed)
    ensures (forall j :: 0 <= j <= k ==> IntOf(ms[j].codigo).Some?)
            ==> SelectModel(env, s, ms[k].modelo).result == Ok(true)
  {
    ExactNameSelected(ms, k);
  }


  // ---------------------------------------------------------------- reference

  lemma RefreshKeepsSelection(env: Env, s: State, today: Date)
    requires ValidEnv(env) && ValidDate(today)
    ensures RefreshTable(env, s, today).next.ctx == s.ctx
  {
  }

  /** With a table in hand `seleciona_referencia` asks nothing, and stores
      exactly the code the resolver gives (its `False` as `None`). */
  lemma SelectReferenceWithTable(env: Env, s: State, mes: Option<int>, ano: Option<int>, today: Date)
    requires ValidEnv(env) && ValidDate(today) && |s.tabela| > 0
    ensures SelectReference(env, s, mes, ano, today)
         == match ResolveReference(env.months, s.tabela, mes, ano, today)
            case Err(e) => Step(Err(e), s, [])
            case Ok(code) => Step(Ok(true), s.(ctx := s.ctx.(referencia := code)), [])
  {
  }

  /** With an empty table it refreshes it first (one table request at most,
      and only with a connection), then resolves against the new table. */
  lemma SelectReferenceRefreshes(env: Env, s: State, mes: Option<int>, ano: Option<int>, today: Date)
    requires ValidEnv(env) && ValidDate(today) && |s.tabela| == 0
    ensures var u := RefreshTable(env, s, today);
            var r := SelectReference(env, s, mes, ano, today);
            && r.sent == u.sent && (r.sent == [] || r.sent == [TableRequest])
            && (!s.ctx.connected ==> r == Step(Err(NotConnected), s, []))
            && (u.result.Ok? ==> r.result.Ok? ==>
                  r.next.ctx.referencia == ResolveReference(env.months, u.next.tabela, mes, ano, today).value)
  {
  }

  /** The refresh answers `True` whenever it does not raise, so the
      `ValueNotFound` of `seleciona_referencia` for a `False` refresh is never
      raised. */
  lemma RefreshNeverFalse(env: Env, s: State, mes: Option<int>, ano: Option<int>, today: Date)
    requires ValidEnv(env) && ValidDate(today)
    ensures RefreshTable(env, s, today).result.Ok? ==> RefreshTable(env, s, today).result.value
    ensures |s.tabela| == 0 && RefreshTable(env, s, today).result.Ok? ==>
              SelectReference(env, s, mes, ano, today).result != Err(ValueNotFound)
              || ResolveReference(env.months, RefreshTable(env, s, today).next.tabela, mes, ano, today)
                 == Err(ValueNotFound)
  {
  }

  /** A fresh table in the store is adopted without a request. */
  lemma FreshStoredTableAdopted(env: Env, s: State, today: Date, t: seq<RefEntry>)
    requires ValidEnv(env) && ValidDate(today) && s.ctx.connected
    requires CacheGet(env, s.store, CHAVE_TABELA) == Some(TablePayload(t)) && IsFresh(env.months, t, today)
    ensures RefreshTable(env, s, today) == Step(Ok(true), s.(tabela := t), [])
  {
  }

  /** A stale table in the store is adopted too, then replaced by the
      provider's table; when the request fails the stale table stays. */
  lemma StaleStoredTableReplaced(env: Env, s: State, today: Date, t: seq<RefEntry>)
    requires ValidEnv(env) && ValidDate(today) && s.ctx.connected
    requires CacheGet(env, s.store, CHAVE_TABELA) == Some(TablePayload(t)) && |t| > 0
    requires !IsFresh(env.months, t, today)
    ensures var r := RefreshTable(env, s, today);
            && r.sent == [TableRequest]
            && (Answer(env.answers, TableRequest).None? ==> r == Step(Err(RequestFailed), s.(tabela := t), [TableRequest]))
            && (r.result.Ok? ==> r.next.tabela == Answer(env.answers, TableRequest).value.entries)
  {
  }

  // ---------------------------------------------------------------- invariant

  /** Every operation keeps the selected vehicle type among {1, 2, 3}. */
  lemma ContextValidAfterSetters(s: State, tipo: int)
    requires ValidContext(s.ctx)
    ensures ValidContext(Reset(s).ctx)
    ensures ValidContext(SelectVehicleType(s, tipo).next.ctx)
  {
  }

  lemma ContextValidAfterSelection(env: Env, s: State, nome: string)
    requires ValidEnv(env) && ValidContext(s.ctx)
    ensures ValidContext(SelectBrand(env, s, nome).next.ctx)
    ensures ValidContext(SelectModel(env, s, nome).next.ctx)
  {
    BrandsKeepSelection(env, s);
    ModelsKeepSelection(env, s);
    SelectBrandFirstMatch(env, s, nome);
    SelectModelFirstMatch(env, s, nome);
  }

  lemma ContextValidAfterReference(env: Env, s: State, mes: Option<int>, anoRef: Option<int>, today: Date)
    requires ValidEnv(env) && ValidDate(today) && ValidContext(s.ctx)
    ensures ValidContext(SelectReference(env, s, mes, anoRef, today).next.ctx)
  {
  }

  lemma ContextValidAfterLookups(env: Env, s: State, ano: int, combustivel: int)
    requires ValidContext(s.ctx)
    ensures ValidContext(LookupBrands(env, s).next.ctx) && ValidContext(LookupModels(env, s).next.ctx)
    ensures ValidContext(LookupYears(env, s).next.ctx)
    ensures ValidContext(QueryPrice(env, s, ano, combustivel).next.ctx)
  {
    BrandsKeepSelection(env, s);
    ModelsKeepSelection(env, s);
    YearsKeepSelection(env, s);
    PriceKeepsSelection(env, s, ano, combustivel);
  }

  /** Under that invariant a price request always carries one of the names of
      the `tipos` table. */
  lemma PriceRequestNamesVehicle(env: Env, s: State, ano: int, combustivel: int)
    requires ValidContext(s.ctx)
    ensures forall q :: q in QueryPrice(env, s, ano, combustivel).sent && q.PriceRequest? ==>
              IsVehicleType(q.tipoVeiculo) && q.tipoNome == VehicleName(q.tipoVeiculo) && q.tipoNome != ""
  {
    if ModelGuard(s.ctx) == Pass && IsFuel(combustivel) {
      YearsLookupRequest(env, s);
      UnlistedSendsOnlyYears(env, s, ano, combustivel);
      var v := CheckYear(env, s, ano, combustivel);
      CheckYearKeepsSelection(env, s, ano, combustivel);
      if v.result == Ok(true) {
        QueryPriceListed(env, s, ano, combustivel);
        PriceRequestsNamed(env, v.next, ano, combustivel, v.sent, QueryPrice(env, s, ano, combustivel).sent);
      }
    } else {
      UncheckedSendsNothing(env, s, ano, combustivel);
    }
  }

  lemma PriceRequestsNamed(env: Env, t: State, ano: int, combustivel: int, before: seq<Request>,
                           sent: seq<Request>)
    requires ModelGuard(t.ctx) == Pass
    requires forall q :: q in before ==> q.YearsRequest?
    requires sent == before + PriceAfterChecks(env, t, ano, combustivel).sent
    ensures forall q :: q in sent && q.PriceRequest? ==>
              IsVehicleType(q.tipoVeiculo) && q.tipoNome == VehicleName(q.tipoVeiculo) && q.tipoNome != ""
  {
    var p := PriceAfterChecks(env, t, ano, combustivel);
    PriceAfterChecksSends(env, t, ano, combustivel);
    forall q | q in sent && q.PriceRequest?
      ensures IsVehicleType(q.tipoVeiculo) && q.tipoNome == VehicleName(q.tipoVeiculo) && q.tipoNome != ""
    {
      assert q in p.sent;
    }
  }
}

/**
 The client session as a state machine: every `FipeAPI` operation as a
 function from the session state (selection context, reference table, memo
 dicts, external store) to its result, the next state and the requests it
 sends to the provider. The `FipeAPI` class in module `Api` is proved to
 follow these functions step by step; the properties of the client are
 stated here, over them.
 */
module Sessao {
  import opened Wrappers
  import opened PyText
  import opened Fipe
  import opened Seqs
  import opened Chaves
  import opened Referencia
  import opened Normaliza

  // ---------------------------------------------------------------- state

  /** The selection fields `_codigo_*_corrente` and whether `_req` holds a
      successful response. `referencia` is `None` also where the resolver
      stored its `False`. */
  datatype Context = Context(connected: bool, referencia: Option<int>, tipoVeiculo: Option<int>,
                             marca: Option<int>, modelo: Option<int>, anoModelo: Option<int>)

  /** The in-process dicts `_marcas`, `_modelos`, `_anos_modelo`, `_preco`.
      `_anos_modelo` holds any payload: a cached price lands there too. */
  datatype Memo = Memo(marcas: map<string, seq<Brand>>, modelos: map<string, seq<Model>>,
                       anosModelo: map<string, Payload>, preco: map<string, PriceData>)

  datatype State = State(ctx: Context, tabela: seq<RefEntry>, memo: Memo, store: map<string, Payload>)

  /** What does not change during a session: the month names, the provider's
      answers, whether the cache is in use (`_verifica_cache()`), and the
      store keys whose reads or writes fail. */
  datatype Env = Env(months: seq<string>, answers: map<Request, Raw>, cacheOn: bool,
                     unreadable: set<string>, unwritable: set<string>)

  predicate ValidEnv(env: Env)
  {
    ValidMonths(env.months)
  }

  /** One operation: its result, the state after it, the requests it sent. */
  datatype Step<T> = Step(result: Result<T>, next: State, sent: seq<Request>)

  /** The selection a fresh session starts with and the reset leaves. */
  function Cleared(connected: bool): Context
  {
    Context(connected, None, None, None, None, None)
  }

  /** A selected vehicle type is one of the three the provider knows. */
  predicate ValidContext(ctx: Context)
  {
    ctx.tipoVeiculo.None? || IsVehicleType(ctx.tipoVeiculo.value)
  }

  // ---------------------------------------------------------------- cache

  /** `_pega_cache`: nothing when the cache is off, the read fails or the key
      is absent; the stored value otherwise (its truthiness is the caller's
      check). */
  function CacheGet(env: Env, store: map<string, Payload>, chave: string): Option<Payload>
  {
    var k := RedisKey(chave);
    if !env.cacheOn || k in env.unreadable || k !in store then None else Some(store[k])
  }

  /** `_salva_cache`: the store after writing, unchanged when the cache is off
      or the write fails. */
  function CachePut(env: Env, store: map<string, Payload>, chave: string, v: Payload): map<string, Payload>
  {
    var k := RedisKey(chave);
    if !env.cacheOn || k in env.unwritable then store else store[k := v]
  }

  // ---------------------------------------------------------------- guards

  /** `_verifica_condicoes_pesquisa`. */
  function Conditions(ctx: Context): Outcome
  {
    if !ctx.connected then Fail(NotConnected)
    else if !IsSet(ctx.referencia) then Fail(IncorrectValue)
    else if !IsSet(ctx.tipoVeiculo) then Fail(IncorrectValue)
    else Pass
  }

  /** The guards of `pega_modelos`: the search conditions, then a brand. */
  function BrandGuard(ctx: Context): Outcome
  {
    if Conditions(ctx).Fail? then Conditions(ctx)
    else if !IsSet(ctx.marca) then Fail(IncorrectValue)
    else Pass
  }

  /** The guards of `pega_anos_modelo` and `consulta_preco_veiculo`: the
      search conditions, a brand, then a model. */
  function ModelGuard(ctx: Context): Outcome
  {
    if BrandGuard(ctx).Fail? then BrandGuard(ctx)
    else if !IsSet(ctx.modelo) then Fail(IncorrectValue)
    else Pass
  }

  // ---------------------------------------------------------------- lookups

  /** `pega_marcas`. */
  function LookupBrands(env: Env, s: State): Step<seq<Brand>>
  {
    if Conditions(s.ctx).Fail? then Step(Err(Conditions(s.ctx).error), s, [])
    else
      var chave := ChaveMarcas(s.ctx.tipoVeiculo.value, s.ctx.referencia.value);
      if chave in s.memo.marcas then Step(Ok(s.memo.marcas[chave]), s, [])
      else
        var c := CacheGet(env, s.store, chave);
        if c.Some? && c.value.BrandsPayload? && Truthy(c.value) then
          Step(Ok(c.value.brands), s.(memo := s.memo.(marcas := s.memo.marcas[chave := c.value.brands])), [])
        else
          var q := BrandsRequest(s.ctx.referencia.value, s.ctx.tipoVeiculo.value);
          var a := Answer(env.answers, q);
          if a.None? then Step(Err(RequestFailed), s, [q])
          else if !a.value.RawPairs? then Step(Err(Malformed), s, [q])
          else match MapAll(a.value.pairs, NormBrand)
            case None => Step(Err(Malformed), s, [q])
            case Some(bs) =>
              Step(Ok(bs), s.(memo := s.memo.(marcas := s.memo.marcas[chave := bs]),
                              store := CachePut(env, s.store, chave, BrandsPayload(bs))), [q])
  }

  /** `pega_modelos`. */
  function LookupModels(env: Env, s: State): Step<seq<Model>>
  {
    if BrandGuard(s.ctx).Fail? then Step(Err(BrandGuard(s.ctx).error), s, [])
    else
      var chave := ChaveModelos(s.ctx.tipoVeiculo.value, s.ctx.referencia.value, s.ctx.marca.value);
      if chave in s.memo.modelos then Step(Ok(s.memo.modelos[chave]), s, [])
      else
        var c := CacheGet(env, s.store, chave);
        if c.Some? && c.value.ModelsPayload? && Truthy(c.value) then
          Step(Ok(c.value.models), s.(memo := s.memo.(modelos := s.memo.modelos[chave := c.value.models])), [])
        else
          var q := ModelsRequest(s.ctx.referencia.value, s.ctx.tipoVeiculo.value, s.ctx.marca.value);
          var a := Answer(env.answers, q);
          if a.None? then Step(Err(RequestFailed), s, [q])
          else if !a.value.RawModels? then Step(Err(Malformed), s, [q])
          else
            var ms := NormModels(a.value.modelos);
            Step(Ok(ms), s.(memo := s.memo.(modelos := s.memo.modelos[chave := ms]),
                            store := CachePut(env, s.store, chave, ModelsPayload(ms))), [q])
  }

  /** `pega_anos_modelo`. A memo entry that is not a list of model years (a
      price the quirk of `consulta_preco_veiculo` put there) is `Malformed`. */
  function LookupYears(env: Env, s: State): Step<seq<ModelYear>>
  {
    if ModelGuard(s.ctx).Fail? then Step(Err(ModelGuard(s.ctx).error), s, [])
    else
      var chave := ChaveAnos(s.ctx.tipoVeiculo.value, s.ctx.referencia.value, s.ctx.marca.value,
                             s.ctx.modelo.value);
      if chave in s.memo.anosModelo then
        var m := s.memo.anosModelo[chave];
        if m.YearsPayload? then Step(Ok(m.years), s, []) else Step(Err(Malformed), s, [])
      else
        var c := CacheGet(env, s.store, chave);
        if c.Some? && c.value.YearsPayload? && Truthy(c.value) then
          Step(Ok(c.value.years), s.(memo := s.memo.(anosModelo := s.memo.anosModelo[chave := c.value])), [])
        else
          var q := YearsRequest(s.ctx.referencia.value, s.ctx.tipoVeiculo.value, s.ctx.modelo.value,
                                s.ctx.marca.value);
          var a := Answer(env.answers, q);
          if a.None? then Step(Err(RequestFailed), s, [q])
          else if !a.value.RawPairs? then Step(Err(Malformed), s, [q])
          else match MapAll(a.value.pairs, NormYear)
            case None => Step(Err(Malformed), s, [q])
            case Some(ys) =>
              Step(Ok(ys), s.(memo := s.memo.(anosModelo := s.memo.anosModelo[chave := YearsPayload(ys)]),
                              store := CachePut(env, s.store, chave, YearsPayload(ys))), [q])
  }

  /** `_verifica_ano_modelo`. */
  function CheckYear(env: Env, s: State, ano: int, combustivel: int): Step<bool>
  {
    var y := LookupYears(env, s);
    if y.result.Err? then Step(Err(y.result.error), y.next, y.sent)
    else Step(Ok(HasYear(y.result.value, ano, combustivel)), y.next, y.sent)
  }

  /** `consulta_preco_veiculo`: its guards, the fuel check and the
      model-year check, then `PriceAfterChecks`. */
  function QueryPrice(env: Env, s: State, ano: int, combustivel: int): Step<PriceData>
  {
    if ModelGuard(s.ctx).Fail? then Step(Err(ModelGuard(s.ctx).error), s, [])
    else if !IsFuel(combustivel) then Step(Err(IncorrectValue), s, [])
    else
      var v := CheckYear(env, s, ano, combustivel);
      if v.result.Err? then Step(Err(v.result.error), v.next, v.sent)
      else if !v.result.value then Step(Err(IncorrectValue), v.next, v.sent)
      else
        var p := PriceAfterChecks(env, v.next, ano, combustivel);
        Step(p.result, p.next, v.sent + p.sent)
  }

  /** The rest of `consulta_preco_veiculo`, once the checks have passed: the
      price memo, then the store (a hit is memoised in `_anos_modelo`, as the
      source does), then the provider. */
  function PriceAfterChecks(env: Env, t: State, ano: int, combustivel: int): Step<PriceData>
    requires ModelGuard(t.ctx) == Pass
  {
    var chave := ChavePreco(t.ctx.tipoVeiculo.value, t.ctx.referencia.value, t.ctx.marca.value,
                            t.ctx.modelo.value, ano, combustivel);
    if chave in t.memo.preco then Step(Ok(t.memo.preco[chave]), t, [])
    else
      var c := CacheGet(env, t.store, chave);
      if c.Some? && c.value.PricePayload? && Truthy(c.value) then
        Step(Ok(c.value.price), t.(memo := t.memo.(anosModelo := t.memo.anosModelo[chave := c.value])), [])
      else FetchPrice(env, t, chave, ano, combustivel)
  }

  /** The provider half of `consulta_preco_veiculo`: the price request, whose
      answer is stored under `chave` and memoised in `_preco`. A vehicle type
      outside the `tipos` table raises (`Malformed`) before the request. */
  function FetchPrice(env: Env, t: State, chave: string, ano: int, combustivel: int): Step<PriceData>
    requires ModelGuard(t.ctx) == Pass
  {
    if !IsVehicleType(t.ctx.tipoVeiculo.value) then Step(Err(Malformed), t, [])
    else
      var q := PriceRequest(t.ctx.referencia.value, t.ctx.tipoVeiculo.value, t.ctx.modelo.value,
                            t.ctx.marca.value, combustivel, ano, VehicleName(t.ctx.tipoVeiculo.value));
      var a := Answer(env.answers, q);
      if a.None? then Step(Err(RequestFailed), t, [q])
      else if !a.value.RawPrice? then Step(Err(Malformed), t, [q])
      else
        var d := a.value.fields;
        Step(Ok(d), t.(memo := t.memo.(preco := t.memo.preco[chave := d]),
                       store := CachePut(env, t.store, chave, PricePayload(d))), [q])
  }

  // ---------------------------------------------------------------- setters

  /** `limpa_dados_selecionados`. */
  function Reset(s: State): State
  {
    s.(ctx := Cleared(s.ctx.connected))
  }

  /** `seleciona_tipo_veiculo`. */
  function SelectVehicleType(s: State, tipo: int): Step<bool>
  {
    if !IsVehicleType(tipo) then Step(Err(IncorrectValue), s, [])
    else Step(Ok(true), s.(ctx := s.ctx.(tipoVeiculo := Some(tipo))), [])
  }

  /** `seleciona_marca`. */
  function SelectBrand(env: Env, s: State, marca: string): Step<bool>
  {
    var b := LookupBrands(env, s);
    if b.result.Err? then Step(Err(b.result.error), b.next, b.sent)
    else
      var bs := b.result.value;
      match FirstIndex(bs, BrandMatcher(Query(marca)))
      case None => Step(Err(IncorrectValue), b.next, b.sent)
      case Some(i) => Step(Ok(true), b.next.(ctx := b.next.ctx.(marca := Some(bs[i].codigo))), b.sent)
  }

  /** `seleciona_modelo`: the matched model's code goes through `int()`,
      which raises (`Malformed`) on a code it cannot read. */
  function SelectModel(env: Env, s: State, modelo: string): Step<bool>
  {
    var m := LookupModels(env, s);
    if m.result.Err? then Step(Err(m.result.error), m.next, m.sent)
    else
      var ms := m.result.value;
      match FirstIndex(ms, ModelMatcher(Query(modelo)))
      case None => Step(Err(IncorrectValue), m.next, m.sent)
      case Some(i) =>
        match IntOf(ms[i].codigo)
        case None => Step(Err(Malformed), m.next, m.sent)
        case Some(c) => Step(Ok(true), m.next.(ctx := m.next.ctx.(modelo := Some(c))), m.sent)
  }

  // ---------------------------------------------------------------- reference table

  /** `_pega_cache_tabela`: a stored non-empty table is adopted whether or not
      it is fresh; the answer says whether its newest entry is today's. */
  function CachedTable(env: Env, s: State, today: Date): (bool, State)
    requires ValidEnv(env) && ValidDate(today)
  {
    var c := CacheGet(env, s.store, CHAVE_TABELA);
    if c.Some? && c.value.TablePayload? && Truthy(c.value) then
      (IsFresh(env.months, c.value.entries, today), s.(tabela := c.value.entries))
    else (false, s)
  }

  /** `_atualiza_tabela_referencia`. */
  function RefreshTable(env: Env, s: State, today: Date): Step<bool>
    requires ValidEnv(env) && ValidDate(today)
  {
    if !s.ctx.connected then Step(Err(NotConnected), s, [])
    else
      var ct := CachedTable(env, s, today);
      var t := ct.1;
      if ct.0 then Step(Ok(true), t, [])
      else
        var a := Answer(env.answers, TableRequest);
        if a.None? then Step(Err(RequestFailed), t, [TableRequest])
        else if !a.value.RawTable? then Step(Err(Malformed), t, [TableRequest])
        else
          var tab := a.value.entries;
          Step(Ok(true), t.(tabela := tab, store := CachePut(env, t.store, CHAVE_TABELA, TablePayload(tab))),
               [TableRequest])
  }

  /** `seleciona_referencia`: the table is fetched only when it is empty; a
      refresh answering `False` would be a `ValueNotFound`. */
  function SelectReference(env: Env, s: State, mes: Option<int>, ano: Option<int>, today: Date): Step<bool>
    requires ValidEnv(env) && ValidDate(today)
  {
    var u := if |s.tabela| == 0 then RefreshTable(env, s, today) else Step(Ok(true), s, []);
    if u.result.Err? then Step(Err(u.result.error), u.next, u.sent)
    else if !u.result.value then Step(Err(ValueNotFound), u.next, u.sent)
    else match ResolveReference(env.months, u.next.tabela, mes, ano, today)
      case Err(e) => Step(Err(e), u.next, u.sent)
      case Ok(code) => Step(Ok(true), u.next.(ctx := u.next.ctx.(referencia := code)), u.sent)
  }
}

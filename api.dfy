/**
 The client object `FipeAPI`, its transport to the provider and its external
 store, written as classes whose fields the operations update. Every method
 is proved to do what the matching function of `Sessao` describes: the same
 result, the same new state, the same requests sent.
 */
module Api {
  import opened Wrappers
  import opened PyText
  import opened Fipe
  import opened Seqs
  import opened Chaves
  import opened Referencia
  import opened Normaliza
  import opened Sessao
  import opened Propriedades

  /** The provider as the client sees it: one fixed answer per request
      (absent where the POST does not come back with status 200), and the
      log of the requests sent so far. */
  class Transport {
    const answers: map<Request, Raw>
    var sent: seq<Request>

    constructor(answers: map<Request, Raw>)
      ensures this.answers == answers && sent == []
    {
      this.answers := answers;
      sent := [];
    }

    /** `_faz_requisicao`. */
    method Post(q: Request) returns (r: Option<Raw>)
      modifies this
      ensures r == Answer(answers, q) && sent == old(sent) + [q]
    {
      sent := sent + [q];
      r := if q in answers then Some(answers[q]) else None;
    }
  }

  /** The Redis server: its contents, and the keys whose reads or writes
      raise `RedisError`. */
  class Store {
    const unreadable: set<string>
    const unwritable: set<string>
    var data: map<string, Payload>

    constructor(data: map<string, Payload>, unreadable: set<string>, unwritable: set<string>)
      ensures this.data == data && this.unreadable == unreadable && this.unwritable == unwritable
    {
      this.data := data;
      this.unreadable := unreadable;
      this.unwritable := unwritable;
    }

    /** `redis.get`; `None` for a missing key and for a failed read. */
    method Get(k: string) returns (r: Option<Payload>)
      ensures r.Some? <==> k !in unreadable && k in data
      ensures r.Some? ==> r.value == data[k]
    {
      if k in unreadable || k !in data {
        r := None;
      } else {
        r := Some(data[k]);
      }
    }

    /** `redis.set`; `false` for a failed write, which changes nothing. */
    method Set(k: string, v: Payload) returns (ok: bool)
      modifies this
      ensures ok <==> k !in unwritable
      ensures data == if ok then old(data)[k := v] else old(data)
    {
      ok := k !in unwritable;
      if ok {
        data := data[k := v];
      }
    }
  }

  class FipeAPI {
    const months: seq<string>
    const net: Transport
    const store: Store
    /** Whether `_req` holds a response: `_conectar` got a status below 400. */
    const connected: bool
    /** `_use_redis`: the trimmed, lowercased `USE_REDIS` variable. */
    const useRedis: string
    /** `_cache`: the store was asked for and answered. */
    const cacheReady: bool

    var tabela: seq<RefEntry>
    var referencia: Option<int>
    var tipoVeiculo: Option<int>
    var marca: Option<int>
    var modelo: Option<int>
    var anoModelo: Option<int>

    var marcas: map<string, seq<Brand>>
    var modelos: map<string, seq<Model>>
    var anosModelo: map<string, Payload>
    var preco: map<string, PriceData>

    /** `__init__` past the connection attempt: `_prepara_dados` (with the
        environment variables as parameters, `None` for an unset one) and
        `_prepara_cache` (with the answer of the store's `time()` call). */
    constructor(months: seq<string>, net: Transport, store: Store, connected: bool,
                useRedisVar: Option<string>, redisHost: Option<string>, redisAnswers: bool)
      requires ValidMonths(months)
      ensures Valid()
      ensures this.months == months && this.net == net && this.store == store
      ensures VerificaCache() <==>
                (Lower(Strip(if useRedisVar.Some? then useRedisVar.value else "False")) == "true"
                 && redisHost.Some? && |redisHost.value| > 0 && redisAnswers)
      ensures Estado() == Sessao.State(Cleared(connected), [], Memo(map[], map[], map[], map[]), store.data)
    {
      this.months := months;
      this.net := net;
      this.store := store;
      this.connected := connected;
      var u := Lower(Strip(if useRedisVar.Some? then useRedisVar.value else "False"));
      this.useRedis := u;
      this.cacheReady := u == "true" && redisHost.Some? && |redisHost.value| > 0 && redisAnswers;
      tabela := [];
      referencia, tipoVeiculo, marca, modelo, anoModelo := None, None, None, None, None;
      marcas, modelos, anosModelo, preco := map[], map[], map[], map[];
    }

    /** `_verifica_cache`. */
    predicate VerificaCache()
    {
      |useRedis| > 0 && cacheReady
    }

    /** The fixed part of the session, in the terms of `Sessao`. */
    function Ambiente(): Sessao.Env
    {
      Sessao.Env(months, net.answers, VerificaCache(), store.unreadable, store.unwritable)
    }

    /** The changing part of the session, in the terms of `Sessao`. */
    function Estado(): Sessao.State
      reads this, store
    {
      Sessao.State(Context(connected, referencia, tipoVeiculo, marca, modelo, anoModelo), tabela,
                   Memo(marcas, modelos, anosModelo, preco), store.data)
    }

    ghost predicate Valid()
      reads this
    {
      ValidMonths(months) && ValidContext(Context(connected, referencia, tipoVeiculo, marca, modelo, anoModelo))
    }

    // ---------------------------------------------------------------- selection

    /** `limpa_dados_selecionados`. */
    method LimpaDadosSelecionados()
      requires Valid()
      modifies this
      ensures Valid() && Estado() == Reset(old(Estado()))
    {
      referencia := None;
      tipoVeiculo := None;
      marca := None;
      modelo := None;
      anoModelo := None;
    }

    /** `seleciona_tipo_veiculo`. */
    method SelecionaTipoVeiculo(tipo: int) returns (r: Result<bool>)
      requires Valid()
      modifies this
      ensures Valid()
      ensures var st := SelectVehicleType(old(Estado()), tipo); r == st.result && Estado() == st.next
    {
      if !(tipo == CARRO || tipo == MOTO || tipo == CAMINHAO) {
        return Err(IncorrectValue);
      }
      tipoVeiculo := Some(tipo);
      return Ok(true);
    }

    /** `_verifica_condicoes_pesquisa`. */
    method VerificaCondicoesPesquisa() returns (r: Outcome)
      ensures r == Conditions(Estado().ctx)
    {
      if !connected {
        return Fail(NotConnected);
      }
      if !IsSet(referencia) {
        return Fail(IncorrectValue);
      }
      if !IsSet(tipoVeiculo) {
        return Fail(IncorrectValue);
      }
      return Pass;
    }

    // ---------------------------------------------------------------- cache

    /** `_pega_cache`. */
    method PegaCache(chave: string) returns (r: Option<Payload>)
      ensures r == CacheGet(Ambiente(), store.data, chave)
    {
      if !VerificaCache() {
        return None;
      }
      r := store.Get(RedisKey(chave));
    }

    /** `_salva_cache`. */
    method SalvaCache(chave: string, valor: Payload) returns (ok: bool)
      modifies store
      ensures store.data == CachePut(Ambiente(), old(store.data), chave, valor)
      ensures ok <==> VerificaCache() && RedisKey(chave) !in store.unwritable
    {
      if !VerificaCache() {
        return false;
      }
      ok := store.Set(RedisKey(chave), valor);
    }

    // ---------------------------------------------------------------- reference

    /** `_pega_cache_tabela`. */
    method PegaCacheTabela(today: Date) returns (atual: bool)
      requires Valid() && ValidDate(today)
      modifies this
      ensures Valid()
      ensures (atual, Estado()) == CachedTable(Ambiente(), old(Estado()), today)
    {
      var c := PegaCache(CHAVE_TABELA);
      if !(c.Some? && c.value.TablePayload? && |c.value.entries| > 0) {
        return false;
      }
      tabela := c.value.entries;
      var last := Split(tabela[0].mes, '/');
      atual := MonthName(months, today.month) == last[0] && |last| >= 2 && ParseInt(last[1]) == Some(today.year);
    }

    /** `_atualiza_tabela_referencia`. */
    method AtualizaTabelaReferencia(today: Date) returns (r: Result<bool>)
      requires Valid() && ValidDate(today)
      modifies this, net, store
      ensures Valid()
      ensures var st := RefreshTable(Ambiente(), old(Estado()), today);
              r == st.result && Estado() == st.next && net.sent == old(net.sent) + st.sent
    {
      if !connected {
        return Err(NotConnected);
      }
      var atual := PegaCacheTabela(today);
      if atual {
        return Ok(true);
      }
      var consulta := net.Post(TableRequest);
      if consulta.None? {
        return Err(RequestFailed);
      }
      if !consulta.value.RawTable? {
        return Err(Malformed);
      }
      tabela := consulta.value.entries;
      var _ := SalvaCache(CHAVE_TABELA, TablePayload(tabela));
      return Ok(true);
    }

    /** `_pega_codigo_referencia`: defaulting and bounds, then the scan for
        the first entry whose trimmed label is "<MonthName>/<year>". */
    method PegaCodigoReferencia(mes: Option<int>, ano: Option<int>, today: Date) returns (r: Result<Option<int>>)
      requires Valid() && ValidDate(today)
      ensures r == ResolveReference(months, tabela, mes, ano, today)
    {
      var m := today.month;
      if Given(mes) {
        if mes.value > 12 {
          return Err(IncorrectValue);
        }
        m := mes.value;
      }
      var y := today.year;
      if Given(ano) {
        if ano.value > today.year {
          return Err(IncorrectValue);
        }
        var primeiro := OldestYear(tabela);
        if primeiro.None? {
          return Ok(None);
        }
        if ano.value < primeiro.value {
          return Err(IncorrectValue);
        }
        y := ano.value;
      }
      var codigo := BuscaCodigo(tabela, SearchLabel(months, m, y));
      if codigo == 0 {
        return Err(ValueNotFound);
      }
      return Ok(Some(codigo));
    }

    /** `seleciona_referencia`. */
    method SelecionaReferencia(mes: Option<int>, ano: Option<int>, today: Date) returns (r: Result<bool>)
      requires Valid() && ValidDate(today)
      modifies this, net, store
      ensures Valid()
      ensures var st := SelectReference(Ambiente(), old(Estado()), mes, ano, today);
              r == st.result && Estado() == st.next && net.sent == old(net.sent) + st.sent
    {
      RefreshKeepsSelection(Ambiente(), Estado(), today);
      if |tabela| == 0 {
        var atualizou := AtualizaTabelaReferencia(today);
        if atualizou.Err? {
          return Err(atualizou.error);
        }
        if !atualizou.value {
          return Err(ValueNotFound);
        }
      }
      var codigo := PegaCodigoReferencia(mes, ano, today);
      if codigo.Err? {
        return Err(codigo.error);
      }
      referencia := codigo.value;
      return Ok(true);
    }

    // ---------------------------------------------------------------- lookups

    /** `pega_marcas`. */
    method PegaMarcas() returns (r: Result<seq<Brand>>)
      requires Valid()
      modifies this, net, store
      ensures Valid()
      ensures var st := LookupBrands(Ambiente(), old(Estado()));
              r == st.result && Estado() == st.next && net.sent == old(net.sent) + st.sent
    {
      var ok := VerificaCondicoesPesquisa();
      if ok.Fail? {
        return Err(ok.error);
      }
      var chave := ChaveMarcas(tipoVeiculo.value, referencia.value);
      if chave in marcas {
        return Ok(marcas[chave]);
      }
      var cache := PegaCache(chave);
      if cache.Some? && cache.value.BrandsPayload? && |cache.value.brands| > 0 {
        marcas := marcas[chave := cache.value.brands];
        return Ok(cache.value.brands);
      }
      var res := net.Post(BrandsRequest(referencia.value, tipoVeiculo.value));
      if res.None? {
        return Err(RequestFailed);
      }
      if !res.value.RawPairs? {
        return Err(Malformed);
      }
      var dados := NormalizaMarcas(res.value.pairs);
      if dados.None? {
        return Err(Malformed);
      }
      var _ := SalvaCache(chave, BrandsPayload(dados.value));
      marcas := marcas[chave := dados.value];
      return Ok(dados.value);
    }

    /** `pega_modelos`. */
    method PegaModelos() returns (r: Result<seq<Model>>)
      requires Valid()
      modifies this, net, store
      ensures Valid()
      ensures var st := LookupModels(Ambiente(), old(Estado()));
              r == st.result && Estado() == st.next && net.sent == old(net.sent) + st.sent
    {
      var ok := VerificaCondicoesPesquisa();
      if ok.Fail? {
        return Err(ok.error);
      }
      if !IsSet(marca) {
        return Err(IncorrectValue);
      }
      var chave := ChaveModelos(tipoVeiculo.value, referencia.value, marca.value);
      if chave in modelos {
        return Ok(modelos[chave]);
      }
      var cache := PegaCache(chave);
      if cache.Some? && cache.value.ModelsPayload? && |cache.value.models| > 0 {
        modelos := modelos[chave := cache.value.models];
        return Ok(cache.value.models);
      }
      var consulta := net.Post(ModelsRequest(referencia.value, tipoVeiculo.value, marca.value));
      if consulta.None? {
        return Err(RequestFailed);
      }
      if !consulta.value.RawModels? {
        return Err(Malformed);
      }
      var reformatado := NormalizaModelos(consulta.value.modelos);
      var _ := SalvaCache(chave, ModelsPayload(reformatado));
      modelos := modelos[chave := reformatado];
      return Ok(reformatado);
    }

    /** `pega_anos_modelo`. */
    method PegaAnosModelo() returns (r: Result<seq<ModelYear>>)
      requires Valid()
      modifies this, net, store
      ensures Valid()
      ensures var st := LookupYears(Ambiente(), old(Estado()));
              r == st.result && Estado() == st.next && net.sent == old(net.sent) + st.sent
    {
      var ok := VerificaCondicoesPesquisa();
      if ok.Fail? {
        return Err(ok.error);
      }
      if !IsSet(marca) || !IsSet(modelo) {
        return Err(IncorrectValue);
      }
      var chave := ChaveAnos(tipoVeiculo.value, referencia.value, marca.value, modelo.value);
      if chave in anosModelo {
        var m := anosModelo[chave];
        if !m.YearsPayload? {
          return Err(Malformed);
        }
        return Ok(m.years);
      }
      var cache := PegaCache(chave);
      if cache.Some? && cache.value.YearsPayload? && |cache.value.years| > 0 {
        anosModelo := anosModelo[chave := cache.value];
        return Ok(cache.value.years);
      }
      var consulta := net.Post(YearsRequest(referencia.value, tipoVeiculo.value, modelo.value, marca.value));
      if consulta.None? {
        return Err(RequestFailed);
      }
      if !consulta.value.RawPairs? {
        return Err(Malformed);
      }
      var reformatado := NormalizaAnos(consulta.value.pairs);
      if reformatado.None? {
        return Err(Malformed);
      }
      var _ := SalvaCache(chave, YearsPayload(reformatado.value));
      anosModelo := anosModelo[chave := YearsPayload(reformatado.value)];
      return Ok(reformatado.value);
    }

    /** `_verifica_ano_modelo`. */
    method VerificaAnoModelo(ano: int, combustivel: int) returns (r: Result<bool>)
      requires Valid()
      modifies this, net, store
      ensures Valid()
      ensures var st := CheckYear(Ambiente(), old(Estado()), ano, combustivel);
              r == st.result && Estado() == st.next && net.sent == old(net.sent) + st.sent
    {
      var anos := PegaAnosModelo();
      if anos.Err? {
        return Err(anos.error);
      }
      var listado := ContemAno(anos.value, ano, combustivel);
      r := Ok(listado);
    }

    /** `consulta_preco_veiculo`. */
    method ConsultaPrecoVeiculo(ano: int, combustivel: int) returns (r: Result<PriceData>)
      requires Valid()
      modifies this, net, store
      ensures Valid()
      ensures var st := QueryPrice(Ambiente(), old(Estado()), ano, combustivel);
              r == st.result && Estado() == st.next && net.sent == old(net.sent) + st.sent
    {
      var ok := VerificaCondicoesPesquisa();
      if ok.Fail? {
        return Err(ok.error);
      }
      if !IsSet(marca) || !IsSet(modelo) {
        return Err(IncorrectValue);
      }
      if !(combustivel == GASOLINA || combustivel == ALCOOL || combustivel == DIESEL) {
        return Err(IncorrectValue);
      }
      r := PrecoDeAnoListado(ano, combustivel);
    }

    /** `consulta_preco_veiculo` once the selection and the fuel are checked:
        the model-year check, then the price. */
    method PrecoDeAnoListado(ano: int, combustivel: int) returns (r: Result<PriceData>)
      requires Valid() && ModelGuard(Estado().ctx) == Pass && IsFuel(combustivel)
      modifies this, net, store
      ensures Valid()
      ensures var st := QueryPrice(Ambiente(), old(Estado()), ano, combustivel);
              r == st.result && Estado() == st.next && net.sent == old(net.sent) + st.sent
    {
      ghost var e := Ambiente();
      ghost var s0 := Estado();
      ghost var sent0 := net.sent;
      ghost var v := CheckYear(e, s0, ano, combustivel);
      CheckYearKeepsSelection(e, s0, ano, combustivel);
      var listado := VerificaAnoModelo(ano, combustivel);
      if listado.Err? {
        QueryPriceUnlisted(e, s0, ano, combustivel);
        r := Err(listado.error);
      } else if !listado.value {
        QueryPriceUnlisted(e, s0, ano, combustivel);
        r := Err(IncorrectValue);
      } else {
        QueryPriceListed(e, s0, ano, combustivel);
        ghost var p := PriceAfterChecks(e, v.next, ano, combustivel);
        r := PrecoAposVerificacoes(ano, combustivel);
        AppendTwice(sent0, v.sent, p.sent);
      }
    }

    /** The part of `consulta_preco_veiculo` after its checks. */
    method PrecoAposVerificacoes(ano: int, combustivel: int) returns (r: Result<PriceData>)
      requires Valid() && ModelGuard(Estado().ctx) == Pass
      modifies this, net, store
      ensures Valid()
      ensures var st := PriceAfterChecks(Ambiente(), old(Estado()), ano, combustivel);
              r == st.result && Estado() == st.next && net.sent == old(net.sent) + st.sent
    {
      var chave := ChavePreco(tipoVeiculo.value, referencia.value, marca.value, modelo.value, ano, combustivel);
      if chave in preco {
        return Ok(preco[chave]);
      }
      var cache := PegaCache(chave);
      if cache.Some? && cache.value.PricePayload? && |cache.value.price| > 0 {
        anosModelo := anosModelo[chave := cache.value];
        return Ok(cache.value.price);
      }
      r := ConsultaFipe(chave, ano, combustivel);
    }

    /** The provider half of `consulta_preco_veiculo`. */
    method ConsultaFipe(chave: string, ano: int, combustivel: int) returns (r: Result<PriceData>)
      requires Valid() && ModelGuard(Estado().ctx) == Pass
      modifies this, net, store
      ensures Valid()
      ensures var st := FetchPrice(Ambiente(), old(Estado()), chave, ano, combustivel);
              r == st.result && Estado() == st.next && net.sent == old(net.sent) + st.sent
    {
      var tipo := tipoVeiculo.value;
      if !(tipo == CARRO || tipo == MOTO || tipo == CAMINHAO) {
        return Err(Malformed);
      }
      var consulta := net.Post(PriceRequest(referencia.value, tipo, modelo.value, marca.value, combustivel, ano,
                                            VehicleName(tipo)));
      if consulta.None? {
        return Err(RequestFailed);
      }
      if !consulta.value.RawPrice? {
        return Err(Malformed);
      }
      var conteudo := consulta.value.fields;
      var _ := SalvaCache(chave, PricePayload(conteudo));
      preco := preco[chave := conteudo];
      return Ok(conteudo);
    }

    // ---------------------------------------------------------------- text selection

    /** `seleciona_marca`. */
    method SelecionaMarca(nome: string) returns (r: Result<bool>)
      requires Valid()
      modifies this, net, store
      ensures Valid()
      ensures var st := SelectBrand(Ambiente(), old(Estado()), nome);
              r == st.result && Estado() == st.next && net.sent == old(net.sent) + st.sent
    {
      BrandsKeepSelection(Ambiente(), Estado());
      var q := Lower(Strip(nome));
      var lista := PegaMarcas();
      if lista.Err? {
        return Err(lista.error);
      }
      var i := PrimeiraMarca(lista.value, q);
      if i.None? {
        return Err(IncorrectValue);
      }
      marca := Some(lista.value[i.value].codigo);
      return Ok(true);
    }

    /** `seleciona_modelo`. */
    method SelecionaModelo(nome: string) returns (r: Result<bool>)
      requires Valid()
      modifies this, net, store
      ensures Valid()
      ensures var st := SelectModel(Ambiente(), old(Estado()), nome);
              r == st.result && Estado() == st.next && net.sent == old(net.sent) + st.sent
    {
      ModelsKeepSelection(Ambiente(), Estado());
      var q := Lower(Strip(nome));
      var lista := PegaModelos();
      if lista.Err? {
        return Err(lista.error);
      }
      var i := PrimeiroModelo(lista.value, q);
      if i.None? {
        return Err(IncorrectValue);
      }
      var codigo := IntOf(lista.value[i.value].codigo);
      if codigo.None? {
        return Err(Malformed);
      }
      modelo := Some(codigo.value);
      return Ok(true);
    }
  }
}

/**
 The cache keys: the selection codes written one after the other with no
 separator (`f'{tipo}{referencia}...'`), and the prefixed name under which a
 key is kept in the external store.
 */
module Chaves {
  import opened PyText

  const PREFIXO: string := "fipeAPI"
  const CHAVE_TABELA: string := "TabelaReferencia"

  /** The external store's key for a cache key: `f'{prefixo}-{chave}'`. */
  function RedisKey(chave: string): string
  {
    PREFIXO + "-" + chave
  }

  function ChaveMarcas(tipo: int, referencia: int): string
  {
    ShowInt(tipo) + ShowInt(referencia)
  }

  function ChaveModelos(tipo: int, referencia: int, marca: int): string
  {
    ShowInt(tipo) + ShowInt(referencia) + ShowInt(marca)
  }

  function ChaveAnos(tipo: int, referencia: int, marca: int, modelo: int): string
  {
    ShowInt(tipo) + ShowInt(referencia) + ShowInt(marca) + ShowInt(modelo)
  }

  function ChavePreco(tipo: int, referencia: int, marca: int, modelo: int, ano: int, combustivel: int): string
  {
    ChaveAnos(tipo, referencia, marca, modelo) + "-" + ShowInt(ano) + "-" + ShowInt(combustivel)
  }

  // ---------------------------------------------------------------- lemmas

  /** Distinct cache keys stay distinct in the store. */
  lemma RedisKeyInjective(a: string, b: string)
    ensures RedisKey(a) == RedisKey(b) ==> a == b
  {
    var n := |PREFIXO| + 1;
    assert RedisKey(a)[n..] == a && RedisKey(b)[n..] == b;
  }

  /** The brands key is unambiguous: the vehicle type is one digit, so the
      key determines the pair (vehicle type, reference code). */
  lemma ChaveMarcasInjective(t1: int, r1: int, t2: int, r2: int)
    requires 0 <= t1 <= 9 && 0 <= t2 <= 9
    ensures ChaveMarcas(t1, r1) == ChaveMarcas(t2, r2) ==> t1 == t2 && r1 == r2
  {
    if ChaveMarcas(t1, r1) == ChaveMarcas(t2, r2) {
      var k := ChaveMarcas(t1, r1);
      assert ShowInt(t1) == [DigitChar(t1)] && ShowInt(t2) == [DigitChar(t2)];
      assert k[0] == DigitChar(t1) && k[0] == DigitChar(t2);
      assert k[1..] == ShowInt(r1) && k[1..] == ShowInt(r2);
      ShowIntInjective(r1, r2);
    }
  }

  /** The models key is not unambiguous: two different scopes (reference 12,
      brand 3) and (reference 1, brand 23) share one key. */
  lemma ChaveModelosCollide()
    ensures ChaveModelos(1, 12, 3) == ChaveModelos(1, 1, 23)
  {
    assert ShowInt(12) == ShowNat(1) + [DigitChar(2)];
    assert ShowInt(23) == ShowNat(2) + [DigitChar(3)];
  }

  lemma AllDigitsConcat(a: string, b: string)
    requires AllDigits(a) && AllDigits(b)
    ensures AllDigits(a + b)
  {
    assert forall i :: 0 <= i < |a + b| ==> (a + b)[i] == if i < |a| then a[i] else b[i - |a|];
  }

  /** A price key never equals a model-years key built from non-negative codes:
      the price key has a `-` where the other has only digits. */
  lemma {:induction false} ChavePrecoIsNotChaveAnos(t: int, r: int, b: int, m: int, ano: int, comb: int,
                                                     t2: int, r2: int, b2: int, m2: int)
    requires t2 >= 0 && r2 >= 0 && b2 >= 0 && m2 >= 0
    ensures ChavePreco(t, r, b, m, ano, comb) != ChaveAnos(t2, r2, b2, m2)
  {
    var anos := ChaveAnos(t2, r2, b2, m2);
    AllDigitsConcat(ShowInt(t2), ShowInt(r2));
    AllDigitsConcat(ShowInt(t2) + ShowInt(r2), ShowInt(b2));
    AllDigitsConcat(ShowInt(t2) + ShowInt(r2) + ShowInt(b2), ShowInt(m2));
    var p := ChavePreco(t, r, b, m, ano, comb);
    var n := |ChaveAnos(t, r, b, m)|;
    assert p[n] == '-' && !IsDigit(p[n]);
    if n < |anos| {
      assert IsDigit(anos[n]);
      assert p[n] != anos[n];
    } else {
      assert |p| > |anos|;
    }
  }

  /** The reference-table key never collides with a lookup key, whose first
      character is a digit or a sign. */
  lemma ChaveTabelaIsolated(t: int, r: int, b: int, m: int, ano: int, comb: int)
    ensures CHAVE_TABELA != ChaveMarcas(t, r)
    ensures CHAVE_TABELA != ChaveModelos(t, r, b)
    ensures CHAVE_TABELA != ChaveAnos(t, r, b, m)
    ensures CHAVE_TABELA != ChavePreco(t, r, b, m, ano, comb)
  {
    var s := ShowInt(t);
    assert ChaveMarcas(t, r)[0] == s[0];
    assert ChaveModelos(t, r, b)[0] == s[0];
    assert ChaveAnos(t, r, b, m)[0] == s[0];
    assert ChavePreco(t, r, b, m, ano, comb)[0] == s[0];
    assert CHAVE_TABELA[0] == 'T';
  }
}

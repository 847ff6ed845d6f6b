/**
 The entities of the FIPE client: the provider's reference table, brands,
 models, model years and price records, the requests the client sends, the
 raw payloads the provider answers with, and the client's typed errors.
 */
module Fipe {
  import opened Wrappers

  /** The client's exception classes; `Malformed` stands for the untyped
      exception Python raises when a provider payload has an unexpected shape
      (`int()` of a non-number, a missing key, too few `-`-separated parts). */
  datatype Error = NotConnected | IncorrectValue | ValueNotFound | RequestFailed | Malformed

  datatype Result<+T> = Ok(value: T) | Err(error: Error)

  /** What a setter reports: `True`, or the exception it raises. */
  datatype Outcome = Pass | Fail(error: Error)

  // Vehicle types and fuels, as the provider numbers them.
  const CARRO: int := 1
  const MOTO: int := 2
  const CAMINHAO: int := 3

  const GASOLINA: int := 1
  const ALCOOL: int := 2
  const DIESEL: int := 3

  predicate IsVehicleType(t: int)
  {
    t == CARRO || t == MOTO || t == CAMINHAO
  }

  predicate IsFuel(f: int)
  {
    f == GASOLINA || f == ALCOOL || f == DIESEL
  }

  /** The `tipos` table sent with a price request. */
  function VehicleName(t: int): string
  {
    if t == CARRO then "carro" else if t == MOTO then "moto" else if t == CAMINHAO then "caminhao" else ""
  }

  /** What `datetime.today()` contributes: the current month and year. */
  datatype Date = Date(month: int, year: int)

  predicate ValidDate(d: Date)
  {
    1 <= d.month <= 12 && 1 <= d.year
  }

  /** An entry `{Codigo, Mes}` of the reference table; `Mes` is "MonthName/YYYY",
      possibly with whitespace around it. */
  datatype RefEntry = RefEntry(codigo: int, mes: string)

  /** A provider `{Value, Label}` pair (brands and model years); `text` holds `Label`. */
  datatype Pair = Pair(value: string, text: string)

  /** A JSON scalar as the provider may send it in a model's `Value`: a
      number or a string. The client keeps it as it came and applies `int()`
      only when a model is selected. */
  datatype Scalar = Number(n: int) | Text(t: string)

  /** A provider model `{Value, Label}`. */
  datatype RawModel = RawModel(value: Scalar, text: string)

  datatype Brand = Brand(codigo: int, marca: string)

  datatype Model = Model(codigo: Scalar, modelo: string)

  /** A normalised model year: year and fuel code taken from `Value` "Y-F". */
  datatype ModelYear = ModelYear(ano: int, combustivel: int, descricao: string, codigo: string)

  /** The provider's flat price object, field name to field text. */
  type PriceData = map<string, string>

  /** A value the client keeps in a memo dict or in the external store. */
  datatype Payload =
    | TablePayload(entries: seq<RefEntry>)
    | BrandsPayload(brands: seq<Brand>)
    | ModelsPayload(models: seq<Model>)
    | YearsPayload(years: seq<ModelYear>)
    | PricePayload(price: PriceData)

  /** Python truthiness of a stored value: an empty list or dict is false. */
  predicate Truthy(p: Payload)
  {
    match p
    case TablePayload(t) => |t| > 0
    case BrandsPayload(b) => |b| > 0
    case ModelsPayload(m) => |m| > 0
    case YearsPayload(y) => |y| > 0
    case PricePayload(d) => |d| > 0
  }

  /** The decoded JSON body of a successful (status 200) provider response. */
  datatype Raw =
    | RawTable(entries: seq<RefEntry>)
    | RawPairs(pairs: seq<Pair>)
    | RawModels(modelos: seq<RawModel>)
    | RawPrice(fields: PriceData)

  /** One POST to the provider, with the form data that identifies it. */
  datatype Request =
    | TableRequest
    | BrandsRequest(referencia: int, tipoVeiculo: int)
    | ModelsRequest(referencia: int, tipoVeiculo: int, marca: int)
    | YearsRequest(referencia: int, tipoVeiculo: int, modelo: int, marca: int)
    | PriceRequest(referencia: int, tipoVeiculo: int, modelo: int, marca: int,
                   combustivel: int, anoModelo: int, tipoNome: string)

  /** The answer the provider gives to a request: `None` when the transport
      fails or the status is not 200. */
  function Answer(answers: map<Request, Raw>, q: Request): Option<Raw>
  {
    if q in answers then Some(answers[q]) else None
  }

  /** Python truthiness of a selection field: `None` and `0` are unset. */
  predicate IsSet(o: Option<int>)
  {
    o.Some? && o.value != 0
  }
}

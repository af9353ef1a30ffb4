/** The fixed vocabulary of the compass: the four indicator types (column-name
    prefixes), the five dimensions with their five variables each, the five
    administrative scales with their `COD` prefixes, and the display label of
    every score column. */
module Catalog {
  import opened Wrappers

  // ---------------------------------------------------------------------------
  // Indicator types (`indicador_prefix`)
  // ---------------------------------------------------------------------------

  datatype Indicator = Derechos | ObrasPublicas | OrganizacionSocial | Normas

  /** The indicator types in the order of the table columns and of the radar axes. */
  const Indicators: seq<Indicator> := [Derechos, ObrasPublicas, OrganizacionSocial, Normas]

  function IndicatorName(i: Indicator): string {
    match i
    case Derechos => "Derechos"
    case ObrasPublicas => "Obras públicas"
    case OrganizacionSocial => "Organización social"
    case Normas => "Normas"
  }

  function IndicatorPrefix(i: Indicator): string {
    match i
    case Derechos => "d-"
    case ObrasPublicas => "op-"
    case OrganizacionSocial => "os-"
    case Normas => "n-"
  }

  // ---------------------------------------------------------------------------
  // Dimensions (`dimension_vars`) and their variables
  // ---------------------------------------------------------------------------

  datatype Dimension = ViviendaYSuelo | Infraestructuras | Equipamientos | Accesibilidad | DesarrolloLocal

  /** The dimensions in the order of the tabs and of the consolidated table. */
  const Dimensions: seq<Dimension> :=
    [ViviendaYSuelo, Infraestructuras, Equipamientos, Accesibilidad, DesarrolloLocal]

  /** The tab title, which is also the key of `dimension_vars`. */
  function DimensionName(d: Dimension): string {
    match d
    case ViviendaYSuelo => "VIVIENDA Y SUELO"
    case Infraestructuras => "INFRAESTRUCTURAS"
    case Equipamientos => "EQUIPAMIENTOS"
    case Accesibilidad => "ACCESIBILIDAD"
    case DesarrolloLocal => "DESARROLLO LOCAL"
  }

  function DimensionVars(d: Dimension): seq<string> {
    match d
    case ViviendaYSuelo => ["a1", "a2", "a3", "a4", "a5"]
    case Infraestructuras => ["b1", "b2", "b3", "b4", "b5"]
    case Equipamientos => ["c1", "c2", "c3", "c4", "c5"]
    case Accesibilidad => ["d1", "d2", "d3", "d4", "d5"]
    case DesarrolloLocal => ["e1", "e2", "e3", "e4", "e5"]
  }

  /** The letter every variable of a dimension starts with. */
  function DimensionLetter(d: Dimension): char {
    match d
    case ViviendaYSuelo => 'a'
    case Infraestructuras => 'b'
    case Equipamientos => 'c'
    case Accesibilidad => 'd'
    case DesarrolloLocal => 'e'
  }

  /** The score column of variable `v` under indicator type `i` (`f"{prefix}{v}"`). */
  function Code(i: Indicator, v: string): string {
    IndicatorPrefix(i) + v
  }

  /** The five score columns of a dimension under one indicator type, in variable order. */
  function SelectedVariables(i: Indicator, d: Dimension): seq<string> {
    seq(5, k requires 0 <= k < 5 => Code(i, DimensionVars(d)[k]))
  }

  /** Variable `k` (from 0) of dimension `d` is its letter followed by the digit k + 1. */
  lemma VarShape(d: Dimension, k: nat)
    requires k < 5
    ensures DimensionVars(d)[k] == [DimensionLetter(d), ('1' as int + k) as char]
  {
    match d
    case ViviendaYSuelo =>
    case Infraestructuras =>
    case Equipamientos =>
    case Accesibilidad =>
    case DesarrolloLocal =>
  }

  // ---------------------------------------------------------------------------
  // Display labels (`variable_map_for_display`)
  // ---------------------------------------------------------------------------

  /** The label of each dimension variable. The dictionary repeats these 25 labels
      under each of the four indicator prefixes. */
  const LabelA1: string := "Seguridad en la tenencia del suelo"
  const LabelA2: string := "Sin hacinamiento en la vivienda"
  const LabelA3: string := "Vivienda construida con materiales permanentes"
  const LabelA4: string := "Vivienda con baño propio"
  const LabelA5: string := "Generación de oferta de vivienda y alquiler a precios accesibles"

  const LabelB1: string := "Provisión de agua potable disponible"
  const LabelB2: string := "Servicio sanitarios o pozos disponibles sin contaminación"
  const LabelB3: string := "Disponibilidad de drenajes que eviten inundación"
  const LabelB4: string := "Conexión de energía (electricidad y gas)"
  const LabelB5: string := "Conexión servicios de telecomunicaciones, Internet, etc."

  const LabelC1: string := "Espacios verdes públicos disponibles y mantenidos"
  const LabelC2: string := "Escuelas pre-escolares, primarias y secundarias"
  const LabelC3: string := "Hospitales y centros de salud de atención primaria disponibles"
  const LabelC4: string := "Servicios seguridad policial, bomberos, templos y DC disponibles"
  const LabelC5: string := "Servicios de alumbrado, barrido y limpieza disponibles"

  const LabelD1: string := "Calzadas disponibles permitiendo movimiento vehicular"
  const LabelD2: string := "Aceras disponibles permitiendo circulación peatonal y ciclística con seguridad vial, iluminadas y limpias"
  const LabelD3: string := "Servicio transporte público guiado disponible a precios accesibles"
  const LabelD4: string := "Servicios de colectivos, taxis y motos disponibles"
  const LabelD5: string := "Posibilidad de acceso de ambulancias, bomberos, policía y defensa civil"

  const LabelE1: string := "Seguridad alimentaria disponible"
  const LabelE2: string := "Disponibilidad de trabajo, ingresos, medios de sustento y previsión social"
  const LabelE3: string := "Capacidad de ahorro y re-inversión en mejoras de la vivienda y el barrio"
  const LabelE4: string := "Tolerancia y aceptación entre grupos sociales diferentes"
  const LabelE5: string := "Acciones de prevención y reducción de riesgos de contaminación y desastres vigentes"

  /** The label of variable `k` (from 0) of dimension `d`. */
  function VariableLabel(d: Dimension, k: nat): string
    requires k < 5
  {
    match d
    case ViviendaYSuelo => [LabelA1, LabelA2, LabelA3, LabelA4, LabelA5][k]
    case Infraestructuras => [LabelB1, LabelB2, LabelB3, LabelB4, LabelB5][k]
    case Equipamientos => [LabelC1, LabelC2, LabelC3, LabelC4, LabelC5][k]
    case Accesibilidad => [LabelD1, LabelD2, LabelD3, LabelD4, LabelD5][k]
    case DesarrolloLocal => [LabelE1, LabelE2, LabelE3, LabelE4, LabelE5][k]
  }

  /** Splits a key of the label dictionary into its indicator type, dimension and
      variable index; `None` for any string that is not one of the 100 keys. */
  function ParseCode(code: string): Option<(Indicator, Dimension, nat)> {
    var split: Option<(Indicator, string)> :=
      if "d-" <= code then Some((Derechos, code[2..]))
      else if "op-" <= code then Some((ObrasPublicas, code[3..]))
      else if "os-" <= code then Some((OrganizacionSocial, code[3..]))
      else if "n-" <= code then Some((Normas, code[2..]))
      else None;
    match split
    case None => None
    case Some((i, v)) =>
      if |v| != 2 || !('1' <= v[1] <= '5') then None
      else
        var k := v[1] as int - '1' as int;
        match v[0]
        case 'a' => Some((i, ViviendaYSuelo, k))
        case 'b' => Some((i, Infraestructuras, k))
        case 'c' => Some((i, Equipamientos, k))
        case 'd' => Some((i, Accesibilidad, k))
        case 'e' => Some((i, DesarrolloLocal, k))
        case _ => None
  }

  /** `variable_map_for_display.get(code)`: the label of a score column, `None` (NaN
      after `Series.map`) for a string that is not a key. */
  function LabelLookup(code: string): Option<string> {
    match ParseCode(code)
    case None => None
    case Some((i, d, k)) => if k < 5 then Some(VariableLabel(d, k)) else None
  }

  /** Every score column of every dimension under every indicator type parses back to
      the triple it was built from. */
  lemma ParseCodeRoundTrip(i: Indicator, d: Dimension, k: nat)
    requires k < 5
    ensures ParseCode(Code(i, DimensionVars(d)[k])) == Some((i, d, k))
  {
    VarShape(d, k);
    var v := DimensionVars(d)[k];
    var code := Code(i, v);
    match i
    case Derechos => assert code[2..] == v;
    case ObrasPublicas => assert code[3..] == v && code[0] == 'o';
    case OrganizacionSocial => assert code[3..] == v && code[..3] == "os-" && code[1] == 's';
    case Normas => assert code[2..] == v && code[0] == 'n';
  }

  /** A string parses only if it is one of the score columns. */
  lemma ParseCodeSound(code: string)
    requires ParseCode(code).Some?
    ensures var (i, d, k) := ParseCode(code).value;
      k < 5 && code == Code(i, DimensionVars(d)[k])
  {
    var (i, d, k) := ParseCode(code).value;
    VarShape(d, k);
    var p := IndicatorPrefix(i);
    var v := code[|p|..];
    assert code == p + v;
    assert v == [v[0], v[1]];
  }

  /** The label dictionary has a key for every `{prefix}{v}`, and its label depends only
      on the variable `v`, not on the indicator prefix. */
  lemma LabelOfEveryColumn(i: Indicator, d: Dimension, k: nat)
    requires k < 5
    ensures LabelLookup(Code(i, DimensionVars(d)[k])) == Some(VariableLabel(d, k))
  {
    ParseCodeRoundTrip(i, d, k);
  }

  /** The keys of the label dictionary are exactly the 100 score columns. */
  lemma LabelLookupDomain(code: string)
    ensures LabelLookup(code).Some? <==>
      exists i: Indicator, d: Dimension, k: nat :: k < 5 && code == Code(i, DimensionVars(d)[k])
  {
    if LabelLookup(code).Some? {
      ParseCodeSound(code);
    }
    if exists i: Indicator, d: Dimension, k: nat :: k < 5 && code == Code(i, DimensionVars(d)[k]) {
      var i: Indicator, d: Dimension, k: nat :| k < 5 && code == Code(i, DimensionVars(d)[k]);
      ParseCodeRoundTrip(i, d, k);
    }
  }

  /** Within one dimension the five labels are pairwise distinct, so a label names
      exactly one variable. */
  lemma LabelsDistinct(d: Dimension, j: nat, k: nat)
    requires j < 5 && k < 5 && j != k
    ensures VariableLabel(d, j) != VariableLabel(d, k)
  {
  }

  /** The tab titles are not keys of the label dictionary. */
  lemma DimensionNameUnlabelled(d: Dimension)
    ensures LabelLookup(DimensionName(d)) == None
  {
    var name := DimensionName(d);
    assert name[0] !in {'d', 'o', 'n'};
  }

  // ---------------------------------------------------------------------------
  // Scales (`escalas_cod`)
  // ---------------------------------------------------------------------------

  datatype Scale = Departamento | MunicipioSantaMaria | MunicipioSanJose | Localidades | Manzanas

  /** The `COD` prefix that selects the features of a scale. */
  function ScalePrefix(s: Scale): string {
    match s
    case Departamento => "DPTO-"
    case MunicipioSantaMaria => "MUN-1"
    case MunicipioSanJose => "MUN-2"
    case Localidades => "LOC-"
    case Manzanas => "MAN-"
  }

  /** No code is selected by two different scales. */
  lemma ScalePrefixesDisjoint(s: Scale, t: Scale, cod: string)
    requires s != t
    ensures !(ScalePrefix(s) <= cod && ScalePrefix(t) <= cod)
  {
    var p, q := ScalePrefix(s), ScalePrefix(t);
    assert p[0] != q[0] || p[1] != q[1] || (|p| > 4 && |q| > 4 && p[4] != q[4]);
    PrefixesOfOneCode(p, q, cod);
  }

  /** Two prefixes of the same string are prefixes of one another. */
  lemma PrefixesOfOneCode(p: string, q: string, cod: string)
    ensures p <= cod && q <= cod ==> p <= q || q <= p
  {
  }

  /** "MUN-1" is a bare prefix, not a delimited code: it also selects the codes of any
      municipality numbered 10 to 19, 100 and so on. */
  lemma MunicipioPrefixUndelimited(rest: string)
    ensures ScalePrefix(MunicipioSantaMaria) <= "MUN-1" + rest
    ensures ScalePrefix(MunicipioSantaMaria) <= "MUN-12"
  {
  }

  /** The department scale selects "DPTO-" codes; a code spelt "DEPTO-" is never selected
      by any scale. */
  lemma DeptoSpellingUnselected(s: Scale, rest: string)
    ensures !(ScalePrefix(s) <= "DEPTO-" + rest)
  {
    var cod := "DEPTO-" + rest;
    assert cod[1] == 'E';
    assert cod[2] == 'P';
  }
}

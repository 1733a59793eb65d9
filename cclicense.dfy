/** The six Creative Commons licences an event can carry, and the lookup from a
    stored licence code back to the licence. */
module CCLicenses {
  import opened Common

  datatype CCLicense = CcBy | CcBySa | CcByNd | CcByNc | CcByNcSa | CcByNcNd

  /** The declaration order of the enum, which `values()` yields. */
  const Values: seq<CCLicense> := [CcBy, CcBySa, CcByNd, CcByNc, CcByNcSa, CcByNcNd]

  function Codigo(l: CCLicense): string {
    match l
    case CcBy => "CC BY"
    case CcBySa => "CC BY-SA"
    case CcByNd => "CC BY-ND"
    case CcByNc => "CC BY-NC"
    case CcByNcSa => "CC BY-NC-SA"
    case CcByNcNd => "CC BY-NC-ND"
  }

  function NombreCompleto(l: CCLicense): string {
    match l
    case CcBy => "Atribución"
    case CcBySa => "Atribución-CompartirIgual"
    case CcByNd => "Atribución-SinDerivadas"
    case CcByNc => "Atribución-NoComercial"
    case CcByNcSa => "Atribución-NoComercial-CompartirIgual"
    case CcByNcNd => "Atribución-NoComercial-SinDerivadas"
  }

  /** `find { it.codigo == codigo }` over a list of licences: the first match, if any. */
  function Find(ls: seq<CCLicense>, codigo: string): (r: Option<CCLicense>)
    ensures r.Some? ==> r.value in ls && Codigo(r.value) == codigo
    ensures r.None? ==> forall l :: l in ls ==> Codigo(l) != codigo
  {
    if ls == [] then None
    else if Codigo(ls[0]) == codigo then Some(ls[0])
    else Find(ls[1..], codigo)
  }

  /** `fromCodigo`: the licence with that code, or CC BY for any other string. */
  function FromCodigo(codigo: string): (l: CCLicense)
    ensures Codigo(l) == codigo || (l == CcBy && forall k :: k in Values ==> Codigo(k) != codigo)
  {
    match Find(Values, codigo)
    case Some(l) => l
    case None => CcBy
  }

  /** There are six licences and their codes are pairwise distinct. */
  lemma CodesDistinct()
    ensures |Values| == 6
    ensures forall l: CCLicense :: l in Values
    ensures forall i, j :: 0 <= i < j < |Values| ==> Codigo(Values[i]) != Codigo(Values[j])
  {
    forall l: CCLicense ensures l in Values {
      match l
      case CcBy => assert Values[0] == l;
      case CcBySa => assert Values[1] == l;
      case CcByNd => assert Values[2] == l;
      case CcByNc => assert Values[3] == l;
      case CcByNcSa => assert Values[4] == l;
      case CcByNcNd => assert Values[5] == l;
    }
  }

  /** Looking a licence up by its own code gives the licence back. */
  lemma FromCodigoRoundTrip(l: CCLicense)
    ensures FromCodigo(Codigo(l)) == l
  {
    CodesDistinct();
  }

  /** The lookup never fails: an unknown code falls back to CC BY. */
  lemma FromCodigoFallback(codigo: string)
    requires forall l: CCLicense :: Codigo(l) != codigo
    ensures FromCodigo(codigo) == CcBy
  {
  }
}

/** The closed string unions of `src/types/index.ts` the modelled code switches on. */
module Types {

  /** `RiskType` */
  datatype RiskType = Drought | Flooding | Erosion | Frost | Heatwave | Fire

  /** `CropType` */
  datatype CropType = Maiz | Trigo | Vid | Palto | Arandano

  /** The string each crop type stands for. */
  function CropTypeName(t: CropType): (s: string)
    ensures |s| >= 3
  {
    match t
    case Maiz => "maiz"
    case Trigo => "trigo"
    case Vid => "vid"
    case Palto => "palto"
    case Arandano => "arandano"
  }

  /** Distinct crop types are distinct strings. */
  lemma CropTypeNamesDistinct(a: CropType, b: CropType)
    ensures a != b ==> CropTypeName(a) != CropTypeName(b)
  {
    if a != b {
      var sa, sb := CropTypeName(a), CropTypeName(b);
      assert sa[0] != sb[0];
    }
  }
}

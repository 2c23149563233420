/** The assessment record: the twelve string fields the schema declares
    (backend/src/models/assessmentModel.js) and that the three-step wizard
    collects in `formData`. */
module AssessmentRecord {
  import opened Js

  datatype Field =
    | Name | Dwellers | Phone | Email
    | RoofArea | OpenSpace | RoofType | SoilType
    | Address | Latitude | Longitude | Rainfall

  /** The property name of a field in `formData`, the request body and the record. */
  function Key(f: Field): string
  {
    match f
    case Name => "name"
    case Dwellers => "dwellers"
    case Phone => "phone"
    case Email => "email"
    case RoofArea => "roofArea"
    case OpenSpace => "openSpace"
    case RoofType => "roofType"
    case SoilType => "soilType"
    case Address => "address"
    case Latitude => "latitude"
    case Longitude => "longitude"
    case Rainfall => "rainfall"
  }

  const FieldKeys: set<string> := {
    "name", "dwellers", "phone", "email", "roofArea", "openSpace",
    "roofType", "soilType", "address", "latitude", "longitude", "rainfall"
  }

  lemma KeysAreFieldKeys(f: Field)
    ensures Key(f) in FieldKeys && Key(f) != "user"
  {
  }

  /** The wizard's `formData`. */
  datatype Form = Form(
    name: string, dwellers: string, phone: string, email: string,
    roofArea: string, openSpace: string, roofType: string, soilType: string,
    address: string, latitude: string, longitude: string, rainfall: string)

  const EmptyForm: Form := Form("", "", "", "", "", "", "", "", "", "", "", "")

  function Get(form: Form, f: Field): string
  {
    match f
    case Name => form.name
    case Dwellers => form.dwellers
    case Phone => form.phone
    case Email => form.email
    case RoofArea => form.roofArea
    case OpenSpace => form.openSpace
    case RoofType => form.roofType
    case SoilType => form.soilType
    case Address => form.address
    case Latitude => form.latitude
    case Longitude => form.longitude
    case Rainfall => form.rainfall
  }

  /** `{ ...formData, [field]: value }`: that field replaced, every other kept. */
  function With(form: Form, f: Field, value: string): (r: Form)
    ensures Get(r, f) == value
    ensures forall g :: g != f ==> Get(r, g) == Get(form, g)
  {
    match f
    case Name => form.(name := value)
    case Dwellers => form.(dwellers := value)
    case Phone => form.(phone := value)
    case Email => form.(email := value)
    case RoofArea => form.(roofArea := value)
    case OpenSpace => form.(openSpace := value)
    case RoofType => form.(roofType := value)
    case SoilType => form.(soilType := value)
    case Address => form.(address := value)
    case Latitude => form.(latitude := value)
    case Longitude => form.(longitude := value)
    case Rainfall => form.(rainfall := value)
  }

  /** `JSON.stringify(formData)`, as an object: every field, as a string. */
  function ToBody(form: Form): (body: map<string, Json>)
    ensures body.Keys == FieldKeys
    ensures forall f :: body[Key(f)] == JStr(Get(form, f))
  {
    map[
      "name" := JStr(form.name), "dwellers" := JStr(form.dwellers),
      "phone" := JStr(form.phone), "email" := JStr(form.email),
      "roofArea" := JStr(form.roofArea), "openSpace" := JStr(form.openSpace),
      "roofType" := JStr(form.roofType), "soilType" := JStr(form.soilType),
      "address" := JStr(form.address), "latitude" := JStr(form.latitude),
      "longitude" := JStr(form.longitude), "rainfall" := JStr(form.rainfall)]
  }
}

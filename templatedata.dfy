/** The snapshot every template is rendered from (internal/generator/templatedata.go).
    The element types come from the introspection package, whose definitions
    are not part of this model: they are opaque here, compared only for
    equality. */
module Snapshot {

  /** One libvips operation as discovered by introspection. */
  type Operation(==)
  /** One libvips enum type with its members. */
  type EnumTypeInfo(==)
  /** One libvips image (object) type. */
  type ImageTypeInfo(==)

  /** `TemplateData`: everything any template may read. `IncludeTest` is a
      generation switch, read by the driver to decide which templates to skip. */
  datatype TemplateData = TemplateData(
    VipsVersion: string,
    Operations: seq<Operation>,
    EnumTypes: seq<EnumTypeInfo>,
    ImageTypes: seq<ImageTypeInfo>,
    IncludeTest: bool)

  /** `NewTemplateData`: stores its five arguments as they are, with no
      filtering, reordering or deduplication of the catalogues. */
  function NewTemplateData(
    vipsVersion: string,
    operations: seq<Operation>,
    enumTypes: seq<EnumTypeInfo>,
    imageTypes: seq<ImageTypeInfo>,
    includeTest: bool
  ): (data: TemplateData)
    ensures data.VipsVersion == vipsVersion
    ensures data.Operations == operations
    ensures data.EnumTypes == enumTypes
    ensures data.ImageTypes == imageTypes
    ensures data.IncludeTest == includeTest
  {
    TemplateData(vipsVersion, operations, enumTypes, imageTypes, includeTest)
  }

  /** The constructor is a function of its arguments alone and loses none of
      them: two snapshots are equal exactly when they were built from equal
      arguments. */
  lemma NewTemplateDataDeterminedByArguments(
    v1: string, ops1: seq<Operation>, enums1: seq<EnumTypeInfo>, images1: seq<ImageTypeInfo>, test1: bool,
    v2: string, ops2: seq<Operation>, enums2: seq<EnumTypeInfo>, images2: seq<ImageTypeInfo>, test2: bool)
    ensures NewTemplateData(v1, ops1, enums1, images1, test1) == NewTemplateData(v2, ops2, enums2, images2, test2)
        <==> v1 == v2 && ops1 == ops2 && enums1 == enums2 && images1 == images2 && test1 == test2
  {
  }
}

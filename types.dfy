/** The GrpcKind managed resource: its desired parameters, its observed status and the
    Ready condition the adapter sets on it. */
module Types {

  datatype Option<+T> = None | Some(value: T)

  newtype int32 = x: int | -0x8000_0000 <= x < 0x8000_0000

  newtype uint8 = x: int | 0 <= x < 0x100

  /** A Go slice of int32: nil, or a non-nil slice holding elems (possibly none).
      Go's reflect.DeepEqual tells the two empty forms apart, so the model does too. */
  datatype Slice = Nil | NonNil(elems: seq<int32>) {
    function Elements(): seq<int32> {
      if Nil? then [] else elems
    }
  }

  /** The configurable fields of a GrpcKind (Spec.ForProvider). */
  datatype GrpcKindParameters = GrpcKindParameters(
    name: string,
    description: Option<string>,
    listItems: Slice)

  /** The observable fields of a GrpcKind (Status.AtProvider). */
  datatype GrpcKindObservation = GrpcKindObservation(status: string)

  /** Reasons a Ready-type condition can carry. */
  datatype ConditionReason = Available | Unavailable | Creating | Deleting

  /** A GrpcKind resource record, updated in place by the adapter. */
  class GrpcKind {
    var forProvider: GrpcKindParameters
    var atProvider: GrpcKindObservation
    /** The Ready condition, if one has been set. */
    var ready: Option<ConditionReason>

    constructor (forProvider: GrpcKindParameters)
      ensures this.forProvider == forProvider
      ensures atProvider == GrpcKindObservation("")
      ensures ready == None
    {
      this.forProvider := forProvider;
      atProvider := GrpcKindObservation("");
      ready := None;
    }
  }

  /** A managed resource handed to the adapter: a GrpcKind, or a resource of some other kind. */
  datatype Managed = GrpcKindResource(cr: GrpcKind) | OtherKind {
    function Objects(): set<object> {
      if GrpcKindResource? then {cr} else {}
    }
  }
}

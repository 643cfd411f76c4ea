/** The errors that supply extraction reports to its caller. */
module AssetError {
  import opened Operations

  datatype Error =
    /** A metadata field the schema requires is absent or empty. */
    | UnsatisfiedSchemaRequirement
    /** An inflation right of the operation is blinded. */
    | InflationAssignmentConfidential(node: NodeId)
    /** The open-epoch right of the operation is blinded. */
    | EpochSealConfidential(node: NodeId)
    /** The burn & replace right of the operation is blinded. */
    | BurnSealConfidential(node: NodeId)
    /** A genesis seal could not be turned into an absolute outpoint. */
    | SealUnresolved
    /** The replaced amount exceeds the burned amount. */
    | SupplyUnderflow(node: NodeId)
}

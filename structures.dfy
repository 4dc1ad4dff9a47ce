/** The records shared by the managed-database aggregator, and the fixed platform list. */
module Structures {

  /** Go's `int8`, the type of `CoreFraction`: every fraction stored must fit it. */
  newtype int8 = x: int | -128 <= x < 128

  /** A preset as the aggregator keeps it: its shape plus the derived platform and fraction. */
  datatype MDBResourcePreset = MDBResourcePreset(
    cores: int,
    memory: int,
    cpuPlatform: string,
    coreFraction: int8)

  /** One database host, expanded with its preset's shape and its disk. */
  datatype MDBResourceItem = MDBResourceItem(
    cpuPlatform: string,
    cores: int,
    coreFraction: int8,
    memory: int,
    networkSsd: int,
    networkHdd: int)

  /** The CPU platforms reported, in report order. */
  const CpuPlatforms: seq<string> := ["Intel Broadwell", "Intel Cascade Lake", "Intel Ice Lake"]

  /** Go's zero value of `MDBResourcePreset`: what a lookup of an absent key yields. */
  const ZeroPreset: MDBResourcePreset := MDBResourcePreset(0, 0, "", 0)

  /** The list has three distinct names, and the zero preset's platform is none of them. */
  lemma CpuPlatformsShape()
    ensures |CpuPlatforms| == 3
    ensures forall i, j :: 0 <= i < j < |CpuPlatforms| ==> CpuPlatforms[i] != CpuPlatforms[j]
    ensures ZeroPreset.cpuPlatform !in CpuPlatforms
    ensures forall p :: p in CpuPlatforms ==> p != ""
  {
  }
}

/**
 * The fixed platform tables of the crossbuild command: the platforms each
 * golang-builder image family can build, and the ARM aliases that stand for
 * several ARM variants.
 */
module Platforms {

  const BuilderImageName: string := "quay.io/prometheus/golang-builder"

  const MainPlatforms: seq<string> := [
    "linux/amd64", "linux/386", "darwin/amd64", "darwin/386", "windows/amd64", "windows/386",
    "freebsd/amd64", "freebsd/386", "openbsd/amd64", "openbsd/386", "netbsd/amd64", "netbsd/386",
    "dragonfly/amd64"
  ]

  const ARMPlatforms: seq<string> := [
    "linux/armv5", "linux/armv6", "linux/armv7", "linux/arm64", "freebsd/armv6", "freebsd/armv7",
    "openbsd/armv7", "netbsd/armv6", "netbsd/armv7"
  ]

  const PowerPCPlatforms: seq<string> := ["aix/ppc64", "linux/ppc64", "linux/ppc64le"]

  const MIPSPlatforms: seq<string> := ["linux/mips", "linux/mipsle", "linux/mips64", "linux/mips64le"]

  const S390Platforms: seq<string> := ["linux/s390x"]

  const ARMAliases: map<string, seq<string>> := map[
    "linux/arm" := ["linux/armv5", "linux/armv6", "linux/armv7"],
    "freebsd/arm" := ["freebsd/armv6", "freebsd/armv7"],
    "openbsd/arm" := ["openbsd/armv7"],
    "netbsd/arm" := ["netbsd/armv6", "netbsd/armv7"]
  ]
}

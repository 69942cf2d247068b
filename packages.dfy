/**
 * The per-package record that the discovery layer hands to both components.
 * How it is built (version detection, vulnerability policy) is not part of
 * this model: its flags and versions are given inputs.
 */
module Packages {
  import opened Wrappers

  datatype PackageInfo = PackageInfo(
    path: string,
    relativePath: string,
    reactVersion: Option<string>,
    nextVersion: Option<string>,
    isReactVulnerable: bool,
    isNextVulnerable: bool,
    packageManager: Option<string>,
    gitBranch: Option<string>,
    defaultBranch: Option<string>,
    commitsBehindDefault: Option<int>)

  /** JavaScript truthiness of an optional string: present and non-empty. */
  predicate Truthy(s: Option<string>) {
    s.Some? && s.value != ""
  }

  /** The vulnerability test both components apply to a package. */
  predicate IsVulnerable(p: PackageInfo)
    ensures p.isReactVulnerable ==> IsVulnerable(p)
    ensures p.isNextVulnerable ==> IsVulnerable(p)
    ensures !p.isReactVulnerable && !p.isNextVulnerable ==> !IsVulnerable(p)
  {
    p.isReactVulnerable || p.isNextVulnerable
  }
}

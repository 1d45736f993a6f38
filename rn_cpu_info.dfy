/**
 * The CPU-core count read from the native module `RNCpuInfo`, with its
 * fallbacks: the asynchronous `getCpuCoreCount` and the synchronous
 * `getCpuCoreCountSync`.
 *
 * When `NativeModules.RNCpuInfo` is missing, the library uses a Proxy in its
 * place whose every property read throws the linking error; that is the
 * `Unlinked` module below.
 */
module RNCpuInfo {

  import opened Optional
  import opened ReactNative

  /** How `RNCpuInfo.getCpuCoreCount()` settles on a linked module. */
  datatype NativeCall = Resolved(count: real) | Failed

  /**
   * `RNCpuInfo`: the Proxy of an unlinked package, or the linked native
   * module with the outcome of its promise and its cached constant
   * `cpuCoreCount` (None when it is null or undefined).
   */
  datatype CpuModule = Unlinked | Linked(call: NativeCall, cpuCoreCount: Option<real>)

  /**
   * The errors the module throws: only the Proxy's linking error. Its
   * message depends on nothing but the platform (the `pod install` hint is
   * shown on iOS only), so the platform stands for the message.
   */
  datatype CpuInfoError = LinkingError(os: Platform)

  /** A call that produces a number, or throws (for a promise: rejects) an Error. */
  datatype Completion = Returned(value: real) | Threw(error: CpuInfoError)

  /** The count used when the native module gives none. */
  const DefaultCoreCount: real := 4.0

  /** JavaScript truthiness of a number that may be null or undefined. */
  predicate Truthy(n: Option<real>) {
    n.Some? && n.value != 0.0
  }

  /**
   * `getCpuCoreCount()`: the native count when the call resolves; otherwise
   * the cached constant when it passes `cpuCoreCount && cpuCoreCount > 0`,
   * and 4 when it does not. On an unlinked module the read of
   * `getCpuCoreCount` throws, and so does the read of `cpuCoreCount` in the
   * catch block, so the promise rejects instead of falling back to 4.
   */
  function GetCpuCoreCount(m: CpuModule, os: Platform): (r: Completion)
    ensures r.Threw? <==> m.Unlinked?
    ensures r.Threw? ==> r.error == LinkingError(os)
    ensures m.Linked? && m.call.Resolved? ==> r == Returned(m.call.count)
    ensures m.Linked? && m.call.Failed? && m.cpuCoreCount.Some? && m.cpuCoreCount.value > 0.0
            ==> r == Returned(m.cpuCoreCount.value)
    ensures m.Linked? && m.call.Failed? && !(m.cpuCoreCount.Some? && m.cpuCoreCount.value > 0.0)
            ==> r == Returned(DefaultCoreCount)
  {
    match m
    case Unlinked => Threw(LinkingError(os))
    case Linked(call, cached) =>
      match call
      case Resolved(count) => Returned(count)
      case Failed =>
        if Truthy(cached) && cached.value > 0.0 then Returned(cached.value)
        else Returned(DefaultCoreCount)
  }

  /**
   * `getCpuCoreCountSync()`: `RNCpuInfo.cpuCoreCount ?? 4`. Only null or
   * undefined fall back to 4, so a cached 0 or a negative count is returned
   * as it is; an unlinked module throws the linking error.
   */
  function GetCpuCoreCountSync(m: CpuModule, os: Platform): (r: Completion)
    ensures r.Threw? <==> m.Unlinked?
    ensures r.Threw? ==> r.error == LinkingError(os)
    ensures m.Linked? && m.cpuCoreCount.Some? ==> r == Returned(m.cpuCoreCount.value)
    ensures m.Linked? && m.cpuCoreCount.None? ==> r == Returned(DefaultCoreCount)
  {
    match m
    case Unlinked => Threw(LinkingError(os))
    case Linked(_, cached) =>
      match cached
      case Some(count) => Returned(count)
      case None => Returned(DefaultCoreCount)
  }

  /**
   * The native module resolves only with a count above zero
   * (`RNCpuInfoModule.getCpuCoreCount`); under that rule a linked module
   * always yields a positive count, whichever fallback is taken.
   */
  lemma LinkedCoreCountIsPositive(m: CpuModule, os: Platform)
    requires m.Linked?
    requires m.call.Resolved? ==> m.call.count > 0.0
    ensures GetCpuCoreCount(m, os).Returned? && GetCpuCoreCount(m, os).value > 0.0
  {
  }

  /**
   * When the native call fails, the two entry points agree exactly when the
   * cached constant is missing or positive: a cached 0 or negative count is
   * replaced by 4 on the asynchronous path and returned by the synchronous one.
   */
  lemma SyncDiffersOnNonPositiveConstant(m: CpuModule, os: Platform)
    requires m.Linked? && m.call.Failed?
    ensures GetCpuCoreCount(m, os) == GetCpuCoreCountSync(m, os)
            <==> m.cpuCoreCount.None? || m.cpuCoreCount.value > 0.0
  {
  }

  /** On an unlinked module neither entry point returns the default: both throw the same linking error. */
  lemma UnlinkedThrowsEverywhere(os: Platform)
    ensures GetCpuCoreCount(Unlinked, os) == GetCpuCoreCountSync(Unlinked, os) == Threw(LinkingError(os))
  {
  }
}

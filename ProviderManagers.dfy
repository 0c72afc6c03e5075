/**
 * The provider managers (Config/BaseNoesisProviderManager.cs and
 * Providers/NoesisProviderManager.cs): each bundles a XAML, a font and a texture
 * provider for the UI and, when disposed the first time, disposes those of them that
 * are disposable, in that order. What disposing a provider does to the provider is
 * outside this model: disposals are recorded in order.
 */
module ProviderManagement {
  import opened Wrappers

  /** One of the three providers: its identity and whether it can be disposed. */
  datatype SubProvider = SubProvider(id: nat, isDisposable: bool)

  /** The bundle handed to the UI. */
  datatype Provider = Provider(xamlProvider: SubProvider, fontProvider: SubProvider, textureProvider: SubProvider)

  /** The disposable providers of a bundle, XAML first, then font, then texture. */
  function DisposableInOrder(p: Provider): (r: seq<SubProvider>)
    ensures |r| <= 3
    ensures forall s :: s in r <==> s.isDisposable && (s == p.xamlProvider || s == p.fontProvider || s == p.textureProvider)
  {
    (if p.xamlProvider.isDisposable then [p.xamlProvider] else [])
    + (if p.fontProvider.isDisposable then [p.fontProvider] else [])
    + (if p.textureProvider.isDisposable then [p.textureProvider] else [])
  }

  /** The disposals come in bundle order: the XAML provider before the font provider before the texture provider. */
  lemma DisposalOrder(p: Provider)
    requires p.xamlProvider.isDisposable && p.fontProvider.isDisposable && p.textureProvider.isDisposable
    ensures DisposableInOrder(p) == [p.xamlProvider, p.fontProvider, p.textureProvider]
  {
  }

  /** A bundle of providers none of which can be disposed is left alone. */
  lemma NothingDisposableNothingDisposed(p: Provider)
    requires !p.xamlProvider.isDisposable && !p.fontProvider.isDisposable && !p.textureProvider.isDisposable
    ensures DisposableInOrder(p) == []
  {
  }

  /** The base class for user-supplied managers; it keeps its bundle and a disposed flag. */
  class BaseNoesisProviderManager {
    const provider: Provider
    var isDisposed: bool
    /** The providers disposed so far, in order. */
    var disposed: seq<SubProvider>
    /** Whether finalization was suppressed, so the finalizer will not run. */
    var isFinalizationSuppressed: bool

    constructor (xamlProvider: SubProvider, fontProvider: SubProvider, textureProvider: SubProvider)
      ensures provider == Provider(xamlProvider, fontProvider, textureProvider)
      ensures !isDisposed && disposed == [] && !isFinalizationSuppressed
    {
      provider := Provider(xamlProvider, fontProvider, textureProvider);
      isDisposed := false;
      disposed := [];
      isFinalizationSuppressed := false;
    }

    /** The first call disposes the disposable providers in order and suppresses finalization; later calls do nothing. */
    method Dispose()
      modifies this
      ensures old(isDisposed) ==> unchanged(this)
      ensures !old(isDisposed) ==> isDisposed && isFinalizationSuppressed && disposed == old(disposed) + DisposableInOrder(provider)
    {
      if isDisposed {
        return;
      }
      isDisposed := true;
      disposed := disposed + DisposableInOrder(provider);
      isFinalizationSuppressed := true;
    }

    /** The finalizer, which the runtime calls unless finalization was suppressed: it disposes. */
    method Finalize()
      requires !isFinalizationSuppressed
      modifies this
      ensures old(isDisposed) ==> unchanged(this)
      ensures !old(isDisposed) ==> isDisposed && isFinalizationSuppressed && disposed == old(disposed) + DisposableInOrder(provider)
    {
      Dispose();
    }
  }

  /** Disposing twice disposes each provider once. */
  method DisposeTwice(manager: BaseNoesisProviderManager)
    requires !manager.isDisposed && manager.disposed == []
    modifies manager
    ensures manager.isDisposed && manager.disposed == DisposableInOrder(manager.provider)
  {
    manager.Dispose();
    manager.Dispose();
  }

  /** The library's own manager: it drops its bundle when disposed. */
  class NoesisProviderManager {
    var provider: Option<Provider>
    /** The providers disposed so far, in order. */
    var disposed: seq<SubProvider>

    constructor (xamlProvider: SubProvider, fontProvider: SubProvider, textureProvider: SubProvider)
      ensures provider == Some(Provider(xamlProvider, fontProvider, textureProvider)) && disposed == []
    {
      provider := Some(Provider(xamlProvider, fontProvider, textureProvider));
      disposed := [];
    }

    /** With a bundle: disposes its disposable providers in order and drops it. Without one: does nothing. */
    method Dispose()
      modifies this
      ensures old(provider).None? ==> unchanged(this)
      ensures old(provider).Some? ==> provider.None? && disposed == old(disposed) + DisposableInOrder(old(provider).value)
    {
      if provider.None? {
        return;
      }
      disposed := disposed + DisposableInOrder(provider.value);
      provider := Option.None;
    }
  }
}

/**
 * KernelStore: the registry of named Semantic Kernel kernels, each kept as a KernelInfo holding its
 * builder and a lazily built kernel, together with the ambient interceptor container of the current
 * scope (an AsyncLocal in the source, an explicit field here) and the helpers that read and write
 * that container.
 */
module Kernels {
  import opened Wrappers
  import opened Text
  import opened OrderedDict
  import opened Interception

  /** A transient registration the store adds to a kernel builder's service collection. */
  datatype Registration = InterceptorTransient(typeName: string) | WrapperTransient(typeName: string)

  /** The ModelInformation a kernel is registered with; only its tokenizer is used here. */
  datatype ModelInformation = ModelInformation(modelName: string, tokenizer: string)

  /** A built kernel: a snapshot of its builder at build time. */
  class Kernel {
    const plugins: seq<string>
    const services: seq<Registration>
    const interceptionEnabled: bool

    constructor (plugins: seq<string>, services: seq<Registration>, interceptionEnabled: bool)
      ensures this.plugins == plugins && this.services == services && this.interceptionEnabled == interceptionEnabled
    {
      this.plugins := plugins;
      this.services := services;
      this.interceptionEnabled := interceptionEnabled;
    }
  }

  /** An IKernelBuilder: its plugins, its service registrations and whether interception is enabled. */
  class KernelBuilder {
    var plugins: seq<string>
    var services: seq<Registration>
    var interceptionEnabled: bool

    constructor ()
      ensures plugins == [] && services == [] && !interceptionEnabled
    {
      plugins := [];
      services := [];
      interceptionEnabled := false;
    }

    /** Plugins.AddFromObject. */
    method AddPlugin(plugin: string)
      modifies this
      ensures plugins == old(plugins) + [plugin]
      ensures services == old(services) && interceptionEnabled == old(interceptionEnabled)
    {
      plugins := plugins + [plugin];
    }

    /** Services.WithInterceptorTransient / WithWrapperTransient. */
    method AddService(reg: Registration)
      modifies this
      ensures services == old(services) + [reg]
      ensures plugins == old(plugins) && interceptionEnabled == old(interceptionEnabled)
    {
      services := services + [reg];
    }

    /** The EnableInterception extension, reduced to the flag it leaves behind. */
    method EnableInterception()
      modifies this
      ensures interceptionEnabled
      ensures plugins == old(plugins) && services == old(services)
    {
      interceptionEnabled := true;
    }

    method Build() returns (k: Kernel)
      ensures fresh(k)
      ensures k.plugins == plugins && k.services == services && k.interceptionEnabled == interceptionEnabled
    {
      k := new Kernel(plugins, services, interceptionEnabled);
    }
  }

  /** KernelInfo: a registered kernel's builder, model, description and name, and its lazily built kernel. */
  class KernelInfo {
    const builder: KernelBuilder
    const modelInformation: ModelInformation
    const description: string
    const name: string
    var kernel: Kernel?

    constructor (builder: KernelBuilder, modelInformation: ModelInformation, description: string, name: string)
      ensures this.builder == builder && this.modelInformation == modelInformation
      ensures this.description == description && this.name == name && kernel == null
    {
      this.builder := builder;
      this.modelInformation := modelInformation;
      this.description := description;
      this.name := name;
      kernel := null;
    }

    /** The Kernel property: built from the builder on first use, the same instance afterwards. */
    method GetKernel() returns (k: Kernel)
      modifies this
      ensures kernel == k
      ensures old(kernel) != null ==> k == old(kernel)
      ensures old(kernel) == null ==> fresh(k) && k.plugins == builder.plugins && k.services == builder.services
    {
      if kernel == null {
        kernel := builder.Build();
      }
      k := kernel;
    }
  }

  /** A kernel's info is built once: two reads of the Kernel property give the same instance. */
  method ReadKernelTwice(info: KernelInfo) returns (k1: Kernel, k2: Kernel)
    modifies info
    ensures k1 == k2 && info.kernel == k1
    ensures old(info.kernel) != null ==> k1 == old(info.kernel)
  {
    k1 := info.GetKernel();
    k2 := info.GetKernel();
  }

  /** The kernel dictionary uses the default (ordinal) comparer. */
  const KernelKeysIgnoreCase := false

  /** n copies of x. */
  function Repeat<T>(x: T, n: nat): (r: seq<T>)
    ensures |r| == n && forall i :: 0 <= i < n ==> r[i] == x
  {
    if n == 0 then [] else Repeat(x, n - 1) + [x]
  }

  /** How many registered kernels share the builder b. */
  function UsesOf(d: Entries<KernelInfo>, b: KernelBuilder): nat
  {
    if d == [] then 0
    else UsesOf(d[..|d| - 1], b) + (if d[|d| - 1].1.builder == b then 1 else 0)
  }

  /** The builders of the registered kernels. */
  function BuildersOf(d: Entries<KernelInfo>): set<KernelBuilder>
  {
    set i | 0 <= i < |d| :: d[i].1.builder
  }

  /** The kernels whose name differs from the excluded one (a null exclusion excludes nothing), in order. */
  function Available(d: Entries<KernelInfo>, exclude: Option<string>): (r: seq<KernelInfo>)
    ensures |r| <= |d|
    ensures forall j :: 0 <= j < |d| && Some(d[j].0) != exclude ==> d[j].1 in r
    ensures forall i :: 0 <= i < |r| ==> exists j :: 0 <= j < |d| && d[j].1 == r[i] && Some(d[j].0) != exclude
  {
    if d == [] then []
    else
      var init := d[..|d| - 1];
      var rest := Available(init, exclude);
      assert forall j :: 0 <= j < |init| ==> init[j] == d[j];
      rest + (if Some(d[|d| - 1].0) != exclude then [d[|d| - 1].1] else [])
  }

  /** The properties whose value passes the type test, in dictionary order. */
  function OfType(props: Entries<PropertyValue>, isT: PropertyValue -> bool): (r: Entries<PropertyValue>)
    ensures |r| <= |props|
    ensures forall e :: e in r <==> e in props && isT(e.1)
  {
    if props == [] then []
    else OfType(props[..|props| - 1], isT) + (if isT(props[|props| - 1].1) then [props[|props| - 1]] else [])
  }

  /** The first tool passing the type test (OfType<T>().FirstOrDefault()). */
  function FirstOf(hs: seq<Hook>, isT: Hook -> bool): (r: Option<Hook>)
    ensures r.Some? ==> exists i :: 0 <= i < |hs| && hs[i] == r.value && isT(hs[i]) && forall j :: 0 <= j < i ==> !isT(hs[j])
    ensures r.None? <==> forall i :: 0 <= i < |hs| ==> !isT(hs[i])
  {
    if hs == [] then None
    else if isT(hs[0]) then Some(hs[0])
    else
      var r := FirstOf(hs[1..], isT);
      assert forall i :: 0 <= i < |hs| - 1 ==> hs[1..][i] == hs[i + 1];
      r
  }

  class KernelStore {
    var kernels: Entries<KernelInfo>
    /** The ambient container of the current scope, null outside a scope. */
    var currentContainer: InterceptorContainer?
    /** What the service provider yields for IChatInterceptorTool and IChatWrappingTool. */
    const serviceInterceptors: seq<Hook>
    const serviceWrappers: seq<Hook>

    constructor (serviceInterceptors: seq<Hook>, serviceWrappers: seq<Hook>)
      ensures kernels == [] && currentContainer == null
      ensures this.serviceInterceptors == serviceInterceptors && this.serviceWrappers == serviceWrappers
    {
      kernels := [];
      currentContainer := null;
      this.serviceInterceptors := serviceInterceptors;
      this.serviceWrappers := serviceWrappers;
    }

    function InfoOf(name: string): Option<KernelInfo>
      reads this
    {
      Get(kernels, name, KernelKeysIgnoreCase)
    }

    function InfoSet(name: string): set<KernelInfo>
      reads this
    {
      match InfoOf(name)
      case None => {}
      case Some(info) => {info}
    }

    function BuilderSet(name: string): set<KernelBuilder>
      reads this
    {
      match InfoOf(name)
      case None => {}
      case Some(info) => {info.builder}
    }

    function Builders(): set<KernelBuilder>
      reads this
    {
      BuildersOf(kernels)
    }

    /**
     * AddKernel: a null or empty name throws ArgumentNullException; otherwise a new KernelInfo is
     * stored under the name, replacing any earlier one in place.
     */
    method AddKernel(name: Option<string>, builder: KernelBuilder, modelInformation: ModelInformation, description: string)
      returns (r: Result<()>)
      modifies this
      ensures currentContainer == old(currentContainer)
      ensures IsNullOrEmpty(name) ==> r == Failure(ArgumentNullException("name")) && kernels == old(kernels)
      ensures !IsNullOrEmpty(name) ==>
        r == Success(()) && InfoOf(name.value).Some?
        && var info := InfoOf(name.value).value;
           fresh(info) && info.builder == builder && info.modelInformation == modelInformation
           && info.description == description && info.name == name.value && info.kernel == null
           && kernels == Put(old(kernels), name.value, info, KernelKeysIgnoreCase)
    {
      if IsNullOrEmpty(name) {
        return Failure(ArgumentNullException("name"));
      }
      var info := new KernelInfo(builder, modelInformation, description, name.value);
      PutThenGet(kernels, name.value, name.value, info, KernelKeysIgnoreCase);
      kernels := Put(kernels, name.value, info, KernelKeysIgnoreCase);
      return Success(());
    }

    /** TryGetKernel: true with the (lazily built) kernel iff the name is registered, else false and null. */
    method TryGetKernel(name: string) returns (found: bool, k: Kernel?)
      modifies InfoSet(name)
      ensures InfoOf(name).None? ==> !found && k == null
      ensures InfoOf(name).Some? ==> found && k != null && k == InfoOf(name).value.kernel
      ensures InfoOf(name).Some? && old(InfoOf(name).value.kernel) != null ==> k == old(InfoOf(name).value.kernel)
    {
      match InfoOf(name)
      case None =>
        return false, null;
      case Some(info) =>
        var built := info.GetKernel();
        return true, built;
    }

    /** GetKernel: the registered kernel, or KeyNotFoundException ("Kernel '<name>' not found") for an unknown name. */
    method GetKernel(name: string) returns (r: Result<Kernel>)
      modifies InfoSet(name)
      ensures InfoOf(name).None? ==> r == Failure(KeyNotFoundException(name))
      ensures InfoOf(name).Some? ==> r.Success? && r.value == InfoOf(name).value.kernel
      ensures InfoOf(name).Some? && old(InfoOf(name).value.kernel) != null ==> r == Success(old(InfoOf(name).value.kernel))
    {
      match InfoOf(name)
      case None =>
        return Failure(KeyNotFoundException(name));
      case Some(info) =>
        var built := info.GetKernel();
        return Success(built);
    }

    /** GetKernelTokenizer: the tokenizer of the registered model, or KeyNotFoundException for an unknown name. */
    function GetKernelTokenizer(name: string): (r: Result<string>)
      reads this
      ensures r.Failure? <==> !ContainsKey(kernels, name, KernelKeysIgnoreCase)
      ensures r.Failure? ==> r.error == KeyNotFoundException(name)
      ensures r.Success? ==>
        exists i :: 0 <= i < |kernels| && kernels[i].0 == name && r.value == kernels[i].1.modelInformation.tokenizer
    {
      match InfoOf(name)
      case None => Failure(KeyNotFoundException(name))
      case Some(info) => Success(info.modelInformation.tokenizer)
    }

    /** AddPlugin: adds the plugin to the named kernel's builder; an unknown kernel throws KeyNotFoundException. */
    method AddPlugin(kernelName: string, plugin: string) returns (r: Result<()>)
      modifies BuilderSet(kernelName)
      ensures InfoOf(kernelName).None? ==> r == Failure(KeyNotFoundException(kernelName))
      ensures InfoOf(kernelName).Some? ==>
        r == Success(()) && var b := InfoOf(kernelName).value.builder;
           b.plugins == old(b.plugins) + [plugin] && b.services == old(b.services)
    {
      match InfoOf(kernelName)
      case None =>
        return Failure(KeyNotFoundException(kernelName));
      case Some(info) =>
        info.builder.AddPlugin(plugin);
        return Success(());
    }

    /** AddInterceptor<T> and AddWrapper<T>: one transient registration on the named kernel's builder. */
    method AddRegistration(kernelName: string, reg: Registration) returns (r: Result<()>)
      modifies BuilderSet(kernelName)
      ensures InfoOf(kernelName).None? ==> r == Failure(KeyNotFoundException(kernelName))
      ensures InfoOf(kernelName).Some? ==>
        r == Success(()) && var b := InfoOf(kernelName).value.builder;
           b.services == old(b.services) + [reg] && b.plugins == old(b.plugins)
    {
      match InfoOf(kernelName)
      case None =>
        return Failure(KeyNotFoundException(kernelName));
      case Some(info) =>
        info.builder.AddService(reg);
        return Success(());
    }

    method AddInterceptor(kernelName: string, typeName: string) returns (r: Result<()>)
      modifies BuilderSet(kernelName)
      ensures InfoOf(kernelName).None? ==> r == Failure(KeyNotFoundException(kernelName))
      ensures InfoOf(kernelName).Some? ==>
        r == Success(()) && var b := InfoOf(kernelName).value.builder;
           b.services == old(b.services) + [InterceptorTransient(typeName)] && b.plugins == old(b.plugins)
    {
      r := AddRegistration(kernelName, InterceptorTransient(typeName));
    }

    method AddWrapper(kernelName: string, typeName: string) returns (r: Result<()>)
      modifies BuilderSet(kernelName)
      ensures InfoOf(kernelName).None? ==> r == Failure(KeyNotFoundException(kernelName))
      ensures InfoOf(kernelName).Some? ==>
        r == Success(()) && var b := InfoOf(kernelName).value.builder;
           b.services == old(b.services) + [WrapperTransient(typeName)] && b.plugins == old(b.plugins)
    {
      r := AddRegistration(kernelName, WrapperTransient(typeName));
    }

    /**
     * AddGlobalInterceptor<T> and AddGlobalWrapper<T>: one registration per registered kernel, so a
     * builder shared by several kernels receives it once per kernel.
     */
    method RegisterEverywhere(reg: Registration)
      modifies Builders()
      ensures forall b :: b in old(Builders()) ==>
        b.services == old(b.services) + Repeat(reg, UsesOf(kernels, b)) && b.plugins == old(b.plugins)
    {
      var i := 0;
      while i < |kernels|
        invariant 0 <= i <= |kernels|
        invariant forall b :: b in old(Builders()) ==>
          b.services == old(b.services) + Repeat(reg, UsesOf(kernels[..i], b)) && b.plugins == old(b.plugins)
      {
        assert kernels[..i + 1][..i] == kernels[..i];
        var builder := kernels[i].1.builder;
        builder.AddService(reg);
        i := i + 1;
      }
      assert kernels[..i] == kernels;
    }

    method AddGlobalInterceptor(typeName: string)
      modifies Builders()
      ensures forall b :: b in old(Builders()) ==>
        b.services == old(b.services) + Repeat(InterceptorTransient(typeName), UsesOf(kernels, b))
    {
      RegisterEverywhere(InterceptorTransient(typeName));
    }

    method AddGlobalWrapper(typeName: string)
      modifies Builders()
      ensures forall b :: b in old(Builders()) ==>
        b.services == old(b.services) + Repeat(WrapperTransient(typeName), UsesOf(kernels, b))
    {
      RegisterEverywhere(WrapperTransient(typeName));
    }

    /** GetAvailableKernels: every registered kernel except the one stored under the excluded name. */
    function GetAvailableKernels(exclude: Option<string>): (r: seq<KernelInfo>)
      reads this
      ensures forall j :: 0 <= j < |kernels| && Some(kernels[j].0) != exclude ==> kernels[j].1 in r
      ensures forall i :: 0 <= i < |r| ==> exists j :: 0 <= j < |kernels| && kernels[j].1 == r[i] && Some(kernels[j].0) != exclude
    {
      Available(kernels, exclude)
    }

    /** EnableInterception: every registered kernel's builder gets interception enabled. */
    method EnableInterception()
      modifies Builders()
      ensures forall b :: b in old(Builders()) ==>
        b.interceptionEnabled && b.plugins == old(b.plugins) && b.services == old(b.services)
    {
      var i := 0;
      while i < |kernels|
        invariant 0 <= i <= |kernels|
        invariant forall b :: b in old(Builders()) ==> b.plugins == old(b.plugins) && b.services == old(b.services)
        invariant forall j :: 0 <= j < i ==> kernels[j].1.builder.interceptionEnabled
      {
        kernels[i].1.builder.EnableInterception();
        i := i + 1;
      }
    }

    /** StartContainerScope: a new container holding the provider's tools becomes the active one. */
    method StartContainerScope() returns (c: InterceptorContainer)
      modifies this
      ensures fresh(c) && currentContainer == c && kernels == old(kernels)
      ensures c.interceptors == serviceInterceptors && c.wrappers == serviceWrappers && c.properties == []
    {
      c := new InterceptorContainer(serviceInterceptors, serviceWrappers);
      currentContainer := c;
    }

    /** ClearContainer: no container is active any more. */
    method ClearContainer()
      modifies this
      ensures currentContainer == null && kernels == old(kernels)
    {
      currentContainer := null;
    }

    /** SetProperty: stores the value in the active container's bag; with no active container it does nothing. */
    method SetProperty(propertyName: string, value: PropertyValue)
      modifies currentContainer
      ensures currentContainer != null ==>
        currentContainer.properties == Put(old(currentContainer.properties), propertyName, value, PropertyKeysIgnoreCase)
        && currentContainer.wrappers == old(currentContainer.wrappers)
        && currentContainer.interceptors == old(currentContainer.interceptors)
    {
      var container := currentContainer;
      if container == null {
        return;
      }
      container.properties := Put(container.properties, propertyName, value, PropertyKeysIgnoreCase);
    }

    /** GetAllPropertyValues<T>: the active container's properties of the requested type, none without a container. */
    function GetAllPropertyValues(isT: PropertyValue -> bool): (r: Entries<PropertyValue>)
      reads this, currentContainer
      ensures currentContainer == null ==> r == []
      ensures currentContainer != null ==> forall e :: e in r <==> e in currentContainer.properties && isT(e.1)
    {
      if currentContainer == null then [] else OfType(currentContainer.properties, isT)
    }

    /**
     * GetInterceptor<T>: null without an active container; otherwise the first interceptor of the
     * requested type, and only when there is none, the first such wrapper.
     */
    function GetInterceptor(isT: Hook -> bool): (r: Option<Hook>)
      reads this, currentContainer
      ensures currentContainer == null ==> r.None?
      ensures r.Some? ==> isT(r.value)
      ensures currentContainer != null && (exists i :: 0 <= i < |currentContainer.interceptors| && isT(currentContainer.interceptors[i])) ==>
        r.Some? && r.value in currentContainer.interceptors
      ensures currentContainer != null && r.Some? && r.value !in currentContainer.interceptors ==> r.value in currentContainer.wrappers
      ensures currentContainer != null ==>
        (r.None? <==> (forall i :: 0 <= i < |currentContainer.interceptors| ==> !isT(currentContainer.interceptors[i]))
                      && (forall i :: 0 <= i < |currentContainer.wrappers| ==> !isT(currentContainer.wrappers[i])))
    {
      if currentContainer == null then None
      else
        match FirstOf(currentContainer.interceptors, isT)
        case Some(h) => Some(h)
        case None => FirstOf(currentContainer.wrappers, isT)
    }
  }
}

/**
 * cluster.provider.NodeAllocationRequest: a resource spec and three callbacks, fixed at
 * construction, plus optional user metadata that is unset until it is assigned. Java's
 * Consumer<T> callbacks are functions to the unit type; the metadata function may
 * return null, hence Option.
 */
module NodeAllocation {
  import opened JavaLang

  class NodeAllocationRequest<Spec, NodeId, Node> {
    const spec: Spec
    const onAllocatedCallback: NodeId -> ()
    const onUpCallback: Node -> ()
    const onErrorCallback: Spec -> ()
    var userMetaData: Option<string -> Option<string>>

    constructor (spec: Spec, onAllocatedCallback: NodeId -> (), onUpCallback: Node -> (),
                 onErrorCallback: Spec -> ())
      ensures this.spec == spec
      ensures this.onAllocatedCallback == onAllocatedCallback
      ensures this.onUpCallback == onUpCallback
      ensures this.onErrorCallback == onErrorCallback
      ensures userMetaData == None
    {
      this.spec := spec;
      this.onAllocatedCallback := onAllocatedCallback;
      this.onUpCallback := onUpCallback;
      this.onErrorCallback := onErrorCallback;
      userMetaData := None;
    }

    function GetUserMetaData(): Option<string -> Option<string>>
      reads this
    {
      userMetaData
    }

    /** Assigns the metadata function (null included) and nothing else. */
    method SetUserMetaData(metaData: Option<string -> Option<string>>)
      modifies this`userMetaData
      ensures GetUserMetaData() == metaData
    {
      userMetaData := metaData;
    }
  }
}

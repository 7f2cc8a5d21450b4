/**
 * The Kubernetes API objects that the inventory code reads, reduced to the
 * fields it uses, and the outcome of a list call.
 */
module Resources {

  /** Go's `int32`, the type of a deployment's replica count. */
  newtype int32 = x: int | -0x8000_0000 <= x < 0x8000_0000

  /** A value that may be absent (nil in the source). */
  datatype Option<T> = None | Some(value: T)

  type Labels = map<string, string>

  datatype Container = Container(name: string, image: string)

  datatype NamespaceRecord = NamespaceRecord(name: string)

  /** `replicas` is `Spec.Replicas`, which may be nil (None). */
  datatype DeploymentRecord = DeploymentRecord(
    name: string,
    namespace: string,
    labels: Labels,
    replicas: Option<int32>)

  datatype PodRecord = PodRecord(
    name: string,
    namespace: string,
    labels: Labels,
    containers: seq<Container>)

  datatype NodeRecord = NodeRecord(name: string, labels: Labels)

  /**
   * The result of a list call. The typed client hands back an empty list
   * object together with the error, so the items of a failed call are none.
   */
  datatype Listing<T> = Listed(items: seq<T>) | ListFailed {
    function Items(): seq<T> {
      if Listed? then items else []
    }
  }
}

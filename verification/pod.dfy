/** The pod description the form collects before every render: one pod with
    its metadata, a handful of spec fields and exactly one container.
    Every text field holds the control's value as typed; an empty string
    stands for both an empty control and a control that is not on the page
    (JavaScript's `undefined`), since the generator treats both as falsy. */
module Pod {

  /** One row of a labels, annotations, node-selector or env list. */
  datatype KeyValue = KeyValue(key: string, value: string)

  datatype Toleration = Toleration(key: string, operator: string, value: string, effect: string)

  /** `kind` is one of `emptyDir`, `configMap`, `secret`,
      `persistentVolumeClaim` when chosen from the form's list; `sourceName`
      names the ConfigMap, Secret or claim and is empty for the others. */
  datatype Volume = Volume(name: string, kind: string, sourceName: string)

  /** `kind` is `configMapRef` or `secretRef` when chosen from the form. */
  datatype EnvFromSource = EnvFromSource(kind: string, name: string)

  datatype Quantities = Quantities(cpu: string, memory: string)

  datatype Resources = Resources(requests: Quantities, limits: Quantities)

  /** The form always offers exactly these three probe slots. */
  datatype ProbeName = Liveness | Readiness | Startup {
    function Text(): string {
      match this
      case Liveness => "liveness"
      case Readiness => "readiness"
      case Startup => "startup"
    }
  }

  /** `kind` is `none`, `httpGet`, `tcpSocket` or `exec` when chosen from the
      form; `path` and `port` are only filled for the kinds that have them,
      and `command` holds the exec command's tokens. */
  datatype Probe = Probe(
    name: ProbeName,
    kind: string,
    initialDelaySeconds: string,
    periodSeconds: string,
    timeoutSeconds: string,
    failureThreshold: string,
    path: string,
    port: string,
    command: seq<string>)

  datatype VolumeMount = VolumeMount(name: string, mountPath: string)

  datatype Container = Container(
    name: string,
    image: string,
    command: seq<string>,
    args: seq<string>,
    env: seq<KeyValue>,
    envFrom: seq<EnvFromSource>,
    resources: Resources,
    probes: seq<Probe>,
    volumeMounts: seq<VolumeMount>)

  datatype SecurityContext = SecurityContext(runAsUser: string, runAsGroup: string, fsGroup: string)

  datatype PodState = PodState(
    podName: string,
    namespace: string,
    labels: seq<KeyValue>,
    annotations: seq<KeyValue>,
    serviceAccountName: string,
    nodeSelector: seq<KeyValue>,
    restartPolicy: string,
    podSecurityContext: SecurityContext,
    tolerations: seq<Toleration>,
    volumes: seq<Volume>,
    container: Container)
}

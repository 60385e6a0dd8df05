/** The start-up decisions of main.go: which Deployment namespace and pod name the service
    targets, and where the Kubernetes client configuration comes from. */
module Startup {
  import opened Results

  /** `os.Getenv`: an unset variable reads as "". */
  function Getenv(env: map<string, string>, key: string): string
  {
    if key in env then env[key] else ""
  }

  const NamespaceVariable: string := "NAMESPACE"
  const PodNameVariable: string := "POD_NAME"
  const ServiceHostVariable: string := "KUBERNETES_SERVICE_HOST"

  /** The namespace and the name used when either variable is missing. */
  const DefaultTarget: string := "ippr"

  /** The assignments of `main` to the `namespace` and `podname` globals: both variables are
      used when both are set, and otherwise both fall back to the default, discarding the one
      that was set. */
  method ResolveTarget(env: map<string, string>) returns (namespace: string, podName: string)
    ensures Getenv(env, NamespaceVariable) != "" && Getenv(env, PodNameVariable) != "" ==>
      namespace == Getenv(env, NamespaceVariable) && podName == Getenv(env, PodNameVariable)
    ensures Getenv(env, NamespaceVariable) == "" || Getenv(env, PodNameVariable) == "" ==>
      namespace == DefaultTarget && podName == DefaultTarget
    ensures namespace != "" && podName != ""
  {
    namespace := Getenv(env, NamespaceVariable);
    podName := Getenv(env, PodNameVariable);
    if namespace == "" || podName == "" {
      namespace := DefaultTarget;
      podName := DefaultTarget;
    }
  }

  /** How `initKubeClient` builds its client configuration. */
  datatype ClientConfig = InCluster | KubeconfigFile(path: string)

  /** `os.UserHomeDir` failed, so there is no kubeconfig path. */
  datatype InitError = HomeDirUnavailable(cause: string)

  /** `s` without its trailing separators. */
  function TrimTrailingSeparators(s: string): (t: string)
    ensures t <= s
    ensures t == "" || t[|t| - 1] != '/'
    ensures forall i :: |t| <= i < |s| ==> s[i] == '/'
  {
    if s != [] && s[|s| - 1] == '/' then TrimTrailingSeparators(s[..|s| - 1]) else s
  }

  /** `filepath.Join(home, ".kube", "config")`: an empty home is skipped, a separator joins
      the parts and trailing separators of home are dropped. */
  function KubeconfigPath(home: string): (path: string)
    ensures home == "" ==> path == ".kube/config"
    ensures home != "" ==> |path| >= |"/.kube/config"| && path[|path| - |"/.kube/config"|..] == "/.kube/config"
    ensures home != "" && home[|home| - 1] != '/' ==> path == home + "/.kube/config"
    ensures home != "" && TrimTrailingSeparators(home) != "" ==> path == TrimTrailingSeparators(home) + "/.kube/config"
    ensures home != "" && TrimTrailingSeparators(home) == "" ==> path == "/.kube/config"
  {
    if home == "" then ".kube/config"
    else
      var dir := TrimTrailingSeparators(home);
      if dir == "" then "/.kube/config" else dir + "/.kube/config"
  }

  /** The branch `initKubeClient` takes: the in-cluster configuration exactly when
      KUBERNETES_SERVICE_HOST is set, otherwise the kubeconfig file in the home directory. */
  function SelectClientConfig(env: map<string, string>, home: Result<string, string>): (r: Result<ClientConfig, InitError>)
    ensures r == Success(InCluster) <==> Getenv(env, ServiceHostVariable) != ""
    ensures Getenv(env, ServiceHostVariable) == "" ==>
      r == (if home.Success? then Success(KubeconfigFile(KubeconfigPath(home.value)))
            else Failure(HomeDirUnavailable(home.error)))
  {
    if Getenv(env, ServiceHostVariable) != "" then Success(InCluster)
    else match home
      case Success(dir) => Success(KubeconfigFile(KubeconfigPath(dir)))
      case Failure(e) => Failure(HomeDirUnavailable(e))
  }

  /** The home directory is consulted only outside the cluster. */
  lemma InClusterIgnoresHome(env: map<string, string>, home1: Result<string, string>, home2: Result<string, string>)
    requires Getenv(env, ServiceHostVariable) != ""
    ensures SelectClientConfig(env, home1) == SelectClientConfig(env, home2)
  {
  }
}

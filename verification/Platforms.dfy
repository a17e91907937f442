/** The four ways a platform can be served, as resolved from the host ConfigMap. */
module Platforms {
  import opened Text

  datatype Host = Host(name: string, address: string, user: string, platform: string, secret: string, concurrency: int)

  /** `scope` is what else confines the instances a cloud provider lists: region and type, network or workspace. */
  datatype PlatformConfig =
    | Local
    | DynamicResolver(provider: string, sshSecret: string, platform: string, maxInstances: int, instanceTag: string, scope: seq<string>,
                      timeout: int, checkInterval: int, sudoCommands: string, tags: map<string, string>)
    | DynamicHostPool(provider: string, sshSecret: string, platform: string, maxInstances: int, maxAge: int,
                      concurrency: int, instanceTag: string, scope: seq<string>, tags: map<string, string>)
    | HostPool(hosts: map<string, Host>, targetPlatform: string)

  /** The form of a platform that is allowed in a label. It is not injective:
      "a-b/c" and "a/b-c" have the same label. */
  function PlatformLabel(platform: string): string {
    ReplaceChar(platform, '/', '-')
  }
}

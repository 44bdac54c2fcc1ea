/**
 What Raft carries without looking inside: the commands of the services built on it, and their states,
 which are what a snapshot holds.
 */
module Service {
  import opened KvService
  import ShardService
  import Controller = ConfigHistory

  datatype Cmd = NoCmd | KvCmd(op: Op) | GroupCmd(cmd: ShardService.Command) | CtrlCmd(ctrlOp: Controller.Op)

  /** The kvraft service, a replica of group `gid` of the sharded store with n shards, or the controller. */
  datatype Data =
    | KvData(kv: KvState)
    | GroupData(n: nat, gid: int, group: ShardService.GroupState)
    | CtrlData(configs: seq<Controller.Config>)

  /** What a service does with one command. */
  ghost function Fold(data: Data, cmd: Cmd): Data {
    match (data, cmd)
    case (KvData(kv), KvCmd(op)) => KvData(Apply(kv, op))
    case (GroupData(n, gid, group), GroupCmd(c)) =>
      if ShardService.Shaped(n, group) && ShardService.InShape(n, c) then
        GroupData(n, gid, ShardService.ApplyCommand(n, gid, group, c))
      else data
    case (CtrlData(configs), CtrlCmd(op)) =>
      if configs != [] && Controller.Sensible(|configs[|configs| - 1].shards|, op) then
        CtrlData(Controller.Apply(configs, op))
      else data
    case _ => data
  }

  /** The commands a service drops when its snapshot covers their index; it looks at the others all the same. */
  predicate IndexChecked(cmd: Cmd) {
    cmd.GroupCmd? ==> cmd.cmd.Operation? || cmd.cmd.Configure?
  }
}

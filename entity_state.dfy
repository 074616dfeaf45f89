/** What the host framework gives every entity: its on/off state and the command terminator. */
module EntityState {

  /** `STATE_ON` / `STATE_OFF`. */
  datatype Power = On | Off

  /** `'{0}\r'.format(command)`: a command as the entities send it. */
  function Terminated(command: string): (payload: string)
    ensures |payload| == |command| + 1
    ensures payload[..|command|] == command && payload[|command|] == '\r'
  {
    command + "\r"
  }
}

/**
 * The caption-session states the protocol layer reports to its callback
 * (`processState(state, msg)`), one constructor per state the core uses.
 */
module CaptionState {
  datatype State =
    | Onhook | Offhook | Registering | Calling | Connected
    | Online | Data | DataFirst | DataMacro | DataCaption | InProgress
    | Ignore | Queued | Waiting | Offline | Error | Command
    | CallEnded | ConnectFailed | ConnectionLost
    | SipRemote | SipLocal
    | SessionSipEstablished | SessionSipRestart | SessionSipStop | SessionSipFailed
    | SessionCallActive | SessionCallEnd
    | CancelCall | DeviceFailed | RegisterFailed
    | Call | Test | Answer | WaitingForIncomingCall | StartCaptions
}

/** The state of an AVDTP signalling channel, `avdtp_session_state_t` of `audio/avdtp.h`. */
module AvdtpSession {
  datatype SessionState = Disconnected | Connecting | Connected
}

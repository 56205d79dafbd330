/**
 * The callbacks that the listeners register, as tags: each names the
 * handler a key event ends up running and the session it acts on.
 */
module Actions {
  datatype Action =
    | ToggleMixer                        // `window_service::toggle_mixer` / `toggle_window`
    | SessionUp(session: string)         // `handle_session_up`
    | SessionDown(session: string)       // `handle_session_down`
    | SessionToggleMute(session: string) // `handle_session_toggle_mute`
}

/** The attribute decoders: each callback tests its payload with
    `!strncmp(data, MARKER, strlen(MARKER))` and picks the active state on a
    match, the opposite state otherwise. */
module Decode {
  import opened SwitchTypes

  /** The byte C sees at the head of a string; the end of the sequence is
      the terminating NUL. */
  function HeadCode(s: string): (c: int)
    ensures |s| > 0 ==> c == s[0] as int
    ensures c == 0 <==> |s| == 0 || s[0] == '\0'
  {
    if |s| == 0 then 0 else s[0] as int
  }

  /** C's `strncmp`: compares at most `n` characters and stops at the first
      difference or at a NUL both strings share. */
  function StrNCmp(s1: string, s2: string, n: nat): int
    decreases n
  {
    if n == 0 then 0
    else if HeadCode(s1) != HeadCode(s2) then HeadCode(s1) - HeadCode(s2)
    else if HeadCode(s1) == 0 then 0
    else StrNCmp(s1[1..], s2[1..], n - 1)
  }

  /** `strncmp(data, marker, strlen(marker)) == 0` holds exactly when the
      payload starts with the marker, for every payload, the empty one
      included. */
  lemma {:induction false} StrNCmpZeroIffPrefix(data: string, marker: CString)
    ensures StrNCmp(data, marker, |marker|) == 0 <==> marker <= data
  {
    if |marker| > 0 {
      assert HeadCode(marker) == marker[0] as int != 0;
      if |data| > 0 && data[0] == marker[0] {
        var rest: CString := marker[1..];
        StrNCmpZeroIffPrefix(data[1..], rest);
        assert marker <= data <==> rest <= data[1..] by {
          assert marker == [marker[0]] + rest;
          assert data == [data[0]] + data[1..];
        }
      }
    }
  }

  /** The fixed-prefix test every decoder applies. */
  predicate Matches(data: string, marker: CString)
    ensures Matches(data, marker) <==> marker <= data
  {
    StrNCmpZeroIffPrefix(data, marker);
    StrNCmp(data, marker, |marker|) == 0
  }

  /** Slide, lid, lens and proximity: open on a match, closed otherwise. */
  function DecodeCover(data: string, open: CString): (s: CoverState)
    ensures s == CoverOpen <==> open <= data
    ensures s == CoverClosed <==> !(open <= data)
  {
    if Matches(data, open) then CoverOpen else CoverClosed
  }

  /** USB cable: connected on a match, disconnected otherwise. */
  function DecodeCable(data: string, connected: CString): (s: CableState)
    ensures s == UsbCableConnected <==> connected <= data
    ensures s == UsbCableDisconnected <==> !(connected <= data)
  {
    if Matches(data, connected) then UsbCableConnected else UsbCableDisconnected
  }

  /** Camera launch button: launch on a match, unpressed otherwise. */
  function DecodeCameraButton(data: string, active: CString): (s: CameraButtonState)
    ensures s == CameraButtonLaunch <==> active <= data
    ensures s == CameraButtonUnpressed <==> !(active <= data)
  {
    if Matches(data, active) then CameraButtonLaunch else CameraButtonUnpressed
  }

  /** Lock flicker key: 1 on a match, 0 otherwise. */
  function DecodeLockkey(data: string, active: CString): (level: int)
    ensures level == 1 <==> active <= data
    ensures level == 0 <==> !(active <= data)
  {
    if Matches(data, active) then 1 else 0
  }
}

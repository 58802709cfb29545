/**
 * Channel bookkeeping of the multi-channel relay driver
 * (greenhouse_main_classes_1/MultiChannelRelay.cpp). The I2C traffic each
 * call sends is left out; the bus's answer to each address during a scan is
 * a parameter. The driver's header is not part of this model: `channel_state`
 * is taken to be a byte (what getChannelState returns) and the address an int
 * (what begin takes).
 */
module Relay {
  import opened Misc

  /** The bit of relay channel c (1..8): channel 1 is the lowest bit. */
  function Mask(c: int): bv8
    requires 1 <= c <= 8
  {
    if c == 1 then 0x01 else if c == 2 then 0x02 else if c == 3 then 0x04 else if c == 4 then 0x08
    else if c == 5 then 0x10 else if c == 6 then 0x20 else if c == 7 then 0x40 else 0x80
  }

  /** The table is the driver's `1 << (channel-1)`. */
  lemma MaskIsShift(c: int)
    requires 1 <= c <= 8
    ensures Mask(c) == (1 as bv8) << (c - 1)
  {
    if c == 1 { assert (1 as bv8) << 0 == 0x01; }
    else if c == 2 { assert (1 as bv8) << 1 == 0x02; }
    else if c == 3 { assert (1 as bv8) << 2 == 0x04; }
    else if c == 4 { assert (1 as bv8) << 3 == 0x08; }
    else if c == 5 { assert (1 as bv8) << 4 == 0x10; }
    else if c == 6 { assert (1 as bv8) << 5 == 0x20; }
    else if c == 7 { assert (1 as bv8) << 6 == 0x40; }
    else { assert (1 as bv8) << 7 == 0x80; }
  }

  /** Whether channel c is switched on in the state byte. */
  predicate IsOn(s: bv8, c: int)
    requires 1 <= c <= 8
  {
    s & Mask(c) != 0
  }

  /** `channel_state |= (1 << (channel-1))`: channel c on, every other channel as it was. */
  function SwitchOn(s: bv8, c: int): (r: bv8)
    requires 1 <= c <= 8
    ensures forall d :: 1 <= d <= 8 ==> (IsOn(r, d) <==> d == c || IsOn(s, d))
  {
    s | Mask(c)
  }

  /** `channel_state &= ~(1 << (channel-1))`: channel c off, every other channel as it was. */
  function SwitchOff(s: bv8, c: int): (r: bv8)
    requires 1 <= c <= 8
    ensures forall d :: 1 <= d <= 8 ==> (IsOn(r, d) <==> d != c && IsOn(s, d))
  {
    s & !Mask(c)
  }

  /** A state byte is determined by its eight channels. */
  lemma ChannelsDetermineState(a: bv8, b: bv8)
    requires forall d :: 1 <= d <= 8 ==> (IsOn(a, d) <==> IsOn(b, d))
    ensures a == b
  {
    assert IsOn(a, 1) == IsOn(b, 1) && IsOn(a, 2) == IsOn(b, 2);
    assert IsOn(a, 3) == IsOn(b, 3) && IsOn(a, 4) == IsOn(b, 4);
    assert IsOn(a, 5) == IsOn(b, 5) && IsOn(a, 6) == IsOn(b, 6);
    assert IsOn(a, 7) == IsOn(b, 7) && IsOn(a, 8) == IsOn(b, 8);
  }

  /** Switching a channel on twice, or off twice, is the same as once. */
  lemma SwitchIdempotent(s: bv8, c: int)
    requires 1 <= c <= 8
    ensures SwitchOn(SwitchOn(s, c), c) == SwitchOn(s, c)
    ensures SwitchOff(SwitchOff(s, c), c) == SwitchOff(s, c)
  {
    ChannelsDetermineState(SwitchOn(SwitchOn(s, c), c), SwitchOn(s, c));
    ChannelsDetermineState(SwitchOff(SwitchOff(s, c), c), SwitchOff(s, c));
  }

  /** Switching a channel that was off on and then off again restores the state byte. */
  lemma OffUndoesOn(s: bv8, c: int)
    requires 1 <= c <= 8 && !IsOn(s, c)
    ensures SwitchOff(SwitchOn(s, c), c) == s
  {
    ChannelsDetermineState(SwitchOff(SwitchOn(s, c), c), s);
  }

  /** The number of addresses in [1, hi) that acknowledged (status 0). */
  function Acks(status: seq<int>, hi: nat): nat
    requires hi <= |status|
  {
    if hi <= 1 then 0 else Acks(status, hi - 1) + (if status[hi - 1] == 0 then 1 else 0)
  }

  class MultiChannelRelay {
    var channelState: bv8
    var i2cAddr: int

    /** MultiChannelRelay::begin. */
    method Begin(address: int)
      modifies this
      ensures channelState == 0 && i2cAddr == address
    {
      channelState := 0;
      i2cAddr := address;
    }

    /** MultiChannelRelay::getChannelState. */
    method GetChannelState() returns (state: bv8)
      ensures state == channelState
    {
      state := channelState;
    }

    /** MultiChannelRelay::channelCtrl: the whole byte is overwritten. */
    method ChannelCtrl(state: bv8)
      modifies this
      ensures channelState == state && i2cAddr == old(i2cAddr)
    {
      channelState := state;
    }

    /** MultiChannelRelay::turn_on_channel. */
    method TurnOnChannel(channel: int)
      requires 1 <= channel <= 8
      modifies this
      ensures channelState == SwitchOn(old(channelState), channel) && i2cAddr == old(i2cAddr)
    {
      MaskIsShift(channel);
      channelState := channelState | ((1 as bv8) << (channel - 1));
    }

    /** MultiChannelRelay::turn_off_channel. */
    method TurnOffChannel(channel: int)
      requires 1 <= channel <= 8
      modifies this
      ensures channelState == SwitchOff(old(channelState), channel) && i2cAddr == old(i2cAddr)
    {
      MaskIsShift(channel);
      channelState := channelState & !((1 as bv8) << (channel - 1));
    }

    /** MultiChannelRelay::changeI2CAddress: the driver addresses the relay at its new address from now on. */
    method ChangeI2CAddress(oldAddr: u8, newAddr: u8)
      modifies this
      ensures i2cAddr == newAddr && channelState == old(channelState)
    {
      i2cAddr := newAddr;
    }

    /**
     * MultiChannelRelay::scanI2CDevice. `status[a]` is what ending a
     * transmission to address a returns (0 = acknowledged). The result is the
     * acknowledging address when exactly one device answered, 0 otherwise.
     */
    method ScanI2CDevice(status: seq<int>) returns (result: u8)
      requires |status| == 128
      ensures result != 0 <==> Acks(status, 128) == 1
      ensures result != 0 ==> 1 <= result <= 127 && status[result] == 0
      ensures result != 0 ==> forall a :: 1 <= a <= 127 && a != result ==> status[a] != 0
    {
      result := 0;
      var nDevices := 0;
      var address := 1;
      while address <= 127
        invariant 1 <= address <= 128
        invariant nDevices == Acks(status, address)
        invariant nDevices == 0 ==> result == 0 && forall a :: 1 <= a < address ==> status[a] != 0
        invariant nDevices > 0 ==> 1 <= result < address && status[result] == 0
        invariant nDevices == 1 ==> forall a :: 1 <= a < address && a != result ==> status[a] != 0
      {
        if status[address] == 0 {
          result := address;
          nDevices := nDevices + 1;
        }
        address := address + 1;
      }
      if nDevices == 0 {
        result := 0;
      } else {
        if nDevices != 1 {
          result := 0;
        }
      }
    }
  }
}

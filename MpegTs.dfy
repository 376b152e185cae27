/** Byte and SEI predicates of the MPEG-TS elementary-stream inspector. */
module MpegTs {
  import opened Common

  /**
   * Whether a byte is "standard ASCII": 0x20 (space) to 0x7F, both included. An accepted
   * byte is a 7-bit code and not one of the C0 control codes.
   */
  function IsStandardAscii(b: u8): (r: bool)
    ensures r ==> b < 0x80
    ensures b < 0x20 ==> !r
  {
    b >= 0x20 && b <= 0x7F
  }

  /**
   * Both bounds are accepted, every control byte below the space and every byte with the
   * high bit set is rejected.
   */
  lemma StandardAsciiBounds()
    ensures IsStandardAscii(0x20) && IsStandardAscii(0x7F)
    ensures !IsStandardAscii(0x0A) && !IsStandardAscii(0x1F) && !IsStandardAscii(0x80)
    ensures forall b: u8 :: b < 0x20 ==> !IsStandardAscii(b)
    ensures forall b: u8 :: b >= 0x80 ==> !IsStandardAscii(b)
  {
  }

  /** The accepted bytes: the 95 printable characters and DEL, 96 values in all. */
  lemma StandardAsciiCount()
    ensures |set b: u8 | IsStandardAscii(b)| == 96
  {
    var accepted: set<int> := set b: u8 | IsStandardAscii(b);
    forall x
      ensures x in accepted <==> 0x20 <= x < 0x80
    {
      if 0x20 <= x < 0x80 {
        assert IsStandardAscii(x);
      }
    }
    RangeSize(accepted, 0x20, 0x80);
  }

  /**
   * The country of an ITU-T T.35 registered user-data SEI message: the United States (whose
   * caption data carries CEA-608) or any other country code.
   */
  datatype ItuTT35 = UnitedStates | OtherCountry(countryCode: u8)

  /** The T.35 country code of the United States (ITU-T T.35, Annex A). */
  const UnitedStatesCountryCode: u8 := 0xB5

  /** The variant a T.35 country code decodes to. */
  function ItuTT35FromCode(countryCode: u8): (t: ItuTT35)
    ensures t.UnitedStates? <==> countryCode == UnitedStatesCountryCode
    ensures t.OtherCountry? ==> t.countryCode == countryCode != UnitedStatesCountryCode
  {
    if countryCode == UnitedStatesCountryCode then UnitedStates else OtherCountry(countryCode)
  }

  /** Whether registered user data is taken to be CEA-608 captions: the United States variant. */
  function IsCea608(t: ItuTT35): (r: bool)
    ensures r <==> t == ItuTT35FromCode(UnitedStatesCountryCode)
  {
    match t
    case UnitedStates => true
    case _ => false
  }

  /** CEA-608 is recognised for the United States country code and for no other. */
  lemma Cea608OnlyForUnitedStates(countryCode: u8)
    ensures IsCea608(ItuTT35FromCode(countryCode)) <==> countryCode == UnitedStatesCountryCode
    ensures forall code: u8 :: !IsCea608(OtherCountry(code))
  {
  }
}

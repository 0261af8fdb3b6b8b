/** The states the kernel starts from are the ones its names prepare. */
module PreparedStates {
  import opened Keccak
  import opened KeccakFlat
  import opened Sponge

  /** "ProofOfWorkHash" and "HeavyHash" in ASCII. */
  const POW_NAME: seq<Byte> := [80, 114, 111, 111, 102, 79, 102, 87, 111, 114, 107, 72, 97, 115, 104]
  const HEAVY_NAME: seq<Byte> := [72, 101, 97, 118, 121, 72, 97, 115, 104]

  lemma NamesEncodable()
    ensures Encodable(POW_NAME) && Encodable(HEAVY_NAME) && POW_NAME != [] && HEAVY_NAME != []
  {
  }

  /** The kernel's table for the nonce hash. */
  function PowTable(): Flat {
    Flat(
      Lane(1242148031264380989), Lane(3008272977830772284), Lane(2188519011337848018), Lane(1992179434288343456),
      Lane(8876506674959887717), Lane(5399642050693751366), Lane(1745875063082670864), Lane(8605242046444978844),
      Lane(17936695144567157056), Lane(3343109343542796272), Lane(1123092876221303306), Lane(4963925045340115282),
      Lane(17037383077651887893), Lane(16629644495023626889), Lane(12833675776649114147), Lane(3784524041015224902),
      Lane(1082795874807940378), Lane(13952716920571277634), Lane(13411128033953605860), Lane(15060696040649351053),
      Lane(9928834659948351306), Lane(5237849264682708699), Lane(12825353012139217522), Lane(6706187291358897596),
      Lane(196324915476054915))
  }

  /** The kernel's table for the final hash. */
  function HeavyTable(): Flat {
    Flat(
      Lane(4239941492252378377), Lane(8746723911537738262), Lane(8796936657246353646), Lane(1272090201925444760),
      Lane(16654558671554924250), Lane(8270816933120786537), Lane(13907396207649043898), Lane(6782861118970774626),
      Lane(9239690602118867528), Lane(11582319943599406348), Lane(17596056728278508070), Lane(15212962468105129023),
      Lane(7812475424661425213), Lane(3370482334374859748), Lane(5690099369266491460), Lane(8596393687355028144),
      Lane(570094237299545110), Lane(9119540418498120711), Lane(16901969272480492857), Lane(13372017233735502424),
      Lane(14372891883993151831), Lane(5171152063242093102), Lane(10573107899694386186), Lane(6096431547456407061),
      Lane(1592359455985097269))
  }

  // ---------- padding ----------

  lemma SuffixLane()
    ensures Joined(0x04, 0, 0, 0, 0, 0, 0, 0) == Lane(4)
    ensures Joined(0, 0, 0, 0, 0, 0, 0, 0x80) == Lane(0x8000_0000_0000_0000)
  {
  }

  /** The padding of `n` bytes by lanes. */
  lemma PadLane(n: nat, l: nat)
    requires n % 8 == 0 && n < 128 && l < 17
    ensures |Pad(Zeros(n), 0x04)| == RATE
    ensures LaneAt(Pad(Zeros(n), 0x04), l) ==
            if l == n / 8 then Lane(4) else if l == 16 then Lane(0x8000_0000_0000_0000) else Lane(0)
  {
    hide Joined, LaneAt;
    var block := Pad(Zeros(n), 0x04);
    assert |block| == RATE && block[n] == 0x04 && block[135] == 0x80;
    assert forall i :: 0 <= i < RATE && i != n && i != 135 ==> block[i] == 0;
    SuffixLane();
    if l == n / 8 || l == 16 {
      LaneAtJoined(block, l);
    } else {
      assert block[8 * l..8 * l + 8] == Zeros(8);
      ZeroLane(block, l);
    }
  }

  lemma ZeroLane(block: seq<Byte>, l: nat)
    requires 8 * l + 8 <= |block| && block[8 * l..8 * l + 8] == Zeros(8)
    ensures LaneAt(block, l) == Lane(0)
  {
    ZeroPart(block, l, 8);
  }

  lemma PaddedLane(s: State, n: nat, l: nat)
    requires n % 8 == 0 && n < 128 && l < 25
    ensures |Pad(Zeros(n), 0x04)| == RATE
    ensures XorBytes(s, Pad(Zeros(n), 0x04), RATE)[l] ==
            if l == n / 8 then Xor(s[l], Lane(4))
            else if l == 16 then Xor(s[l], Lane(0x8000_0000_0000_0000)) else s[l]
  {
    hide Xor, Pad, XorBytes, LanePart;
    PadAt(Zeros(n), 0x04, 0);
    assert Zeros(|Zeros(n)|) == Zeros(n);
    if l < 17 {
      PadLane(n, l);
      AbsorbLane(s, Pad(Zeros(n), 0x04), RATE, l);
      XorLaws(s[l], s[l], s[l]);
    } else {
      CapacityKept(s, Pad(Zeros(n), 0x04), RATE, l);
    }
  }

  // ---------- the first block ----------

  lemma FirstBlockLane(block: seq<Byte>, l: nat)
    requires |block| == RATE && l < 25
    ensures XorBytes(EmptyState(), block, RATE)[l] == if l < 17 then LaneAt(block, l) else Lane(0)
  {
    hide XorBytes, LanePart, Xor;
    if l < 17 {
      AbsorbLane(EmptyState(), block, RATE, l);
      FromZero(LaneAt(block, l));
    } else {
      CapacityKept(EmptyState(), block, RATE, l);
    }
  }

  lemma FromZero(a: Lane)
    ensures Xor(Lane(0), a) == a
  {
    hide BitXor;
    BitFromZero(a.bits);
  }

  lemma BitFromZero(a: bv64)
    ensures BitXor(0, a) == a
  {
  }

  lemma SmallNumbers()
    ensures LeftEncode(136) == [1, 136] && LeftEncode(0) == [1, 0]
    ensures LeftEncode(120) == [1, 120] && LeftEncode(72) == [1, 72]
  {
    SmallBytes();
    assert ByteCount(136) == 1 && ByteCount(0) == 1 && ByteCount(120) == 1 && ByteCount(72) == 1;
  }

  lemma SmallBytes()
    ensures AsByte(1) == 1 && AsByte(136) == 136 && AsByte(0) == 0 && AsByte(120) == 120 && AsByte(72) == 72
  {
  }

  lemma NoRounds(a: State)
    ensures Rounds(a, 0) == a
  {
  }

  lemma NextRound(a: State, n: nat, f: Flat, rc: Lane, g: Flat)
    requires n < 24 && Lane(RC[n]) == rc
    requires Rounds(a, n) == StateOf(f) && Follows(f, rc, g)
    ensures Rounds(a, n + 1) == StateOf(g)
  {
    hide Round, StateOf, Follows, RC;
    RoundFact(f, rc, g);
  }

  // ---------- "ProofOfWorkHash" ----------

  lemma PowHead()
    ensures Encodable(POW_NAME)
    ensures LeftEncode(RATE) + EncodeString([]) + EncodeString(POW_NAME) ==
            [1, 136, 1, 0, 1, 120] + POW_NAME
  {
    NamesEncodable();
    SmallNumbers();
  }

  lemma PowBlock()
    ensures Encodable(POW_NAME) && |Prefix(POW_NAME)| == RATE
    ensures Prefix(POW_NAME) == [1, 136, 1, 0, 1, 120] + POW_NAME + Zeros(115)
  {
    hide LeftEncode, EncodeString, ByteCount;
    PowHead();
  }

  lemma PowLanes()
    ensures Encodable(POW_NAME) && |Prefix(POW_NAME)| == RATE
    ensures LaneAt(Prefix(POW_NAME), 0) == Lane(0x7250780100018801)
    ensures LaneAt(Prefix(POW_NAME), 1) == Lane(0x726F57664F666F6F)
    ensures LaneAt(Prefix(POW_NAME), 2) == Lane(0x000000687361486B)
    ensures forall l :: 3 <= l < 17 ==> LaneAt(Prefix(POW_NAME), l) == Lane(0)
  {
    hide Prefix, LaneAt, Joined, ByteCount;
    PowBlock();
    PowJoined0();
    PowJoined1();
    PowJoined2();
    var block := Prefix(POW_NAME);
    LaneAtJoined(block, 0);
    LaneAtJoined(block, 1);
    LaneAtJoined(block, 2);
    forall l | 3 <= l < 17
      ensures LaneAt(block, l) == Lane(0)
    {
      assert block[8 * l..8 * l + 8] == Zeros(8);
      ZeroLane(block, l);
    }
  }

  lemma PowJoined0()
    ensures Joined(1, 136, 1, 0, 1, 120, 80, 114) == Lane(0x7250780100018801)
  {
  }

  lemma PowJoined1()
    ensures Joined(111, 111, 102, 79, 102, 87, 111, 114) == Lane(0x726F57664F666F6F)
  {
  }

  lemma PowJoined2()
    ensures Joined(107, 72, 97, 115, 104, 0, 0, 0) == Lane(0x000000687361486B)
  {
  }

  // The state before each round; the rounds below check them one by one.

  function Pow0(): Flat {
    Flat(
      Lane(0x7250780100018801), Lane(0x726F57664F666F6F), Lane(0x000000687361486B), Lane(0x0000000000000000),
      Lane(0x0000000000000000), Lane(0x0000000000000000), Lane(0x0000000000000000), Lane(0x0000000000000000),
      Lane(0x0000000000000000), Lane(0x0000000000000000), Lane(0x0000000000000000), Lane(0x0000000000000000),
      Lane(0x0000000000000000), Lane(0x0000000000000000), Lane(0x0000000000000000), Lane(0x0000000000000000),
      Lane(0x0000000000000000), Lane(0x0000000000000000), Lane(0x0000000000000000), Lane(0x0000000000000000),
      Lane(0x0000000000000000), Lane(0x0000000000000000), Lane(0x0000000000000000), Lane(0x0000000000000000),
      Lane(0x0000000000000000))
  }

  function Pow1(): Flat {
    Flat(
      Lane(0x94FCDE5FE6FF76CD), Lane(0x3D89730D02CD1E6C), Lane(0x037BFB93BABB8B53), Lane(0x8F803AE417AD46D7),
      Lane(0x1D01A120C500B108), Lane(0xA1E362C24640B4F6), Lane(0x412A883B09364207), Lane(0xAAB076C0368237D2),
      Lane(0x6228FA483F1A3CDA), Lane(0xEE4DEADDC9C287E4), Lane(0x405C5D6F554AEF70), Lane(0xBBC5D993D88BD938),
      Lane(0xCBE4BBA3AE6B911A), Lane(0xA0BC064C03106EE4), Lane(0x20B3FBA3F3EA83F6), Lane(0x11221A9117241680),
      Lane(0x46DDCDCE7E7E4CFF), Lane(0x01E3479B44231D81), Lane(0xBBB33F3320B3BFB7), Lane(0x87CDE56E20B98901),
      Lane(0x1C93D4B1CF41C8C1), Lane(0xADB5BC89993C2899), Lane(0x41C8437452786340), Lane(0x8D27A949B95C11BD),
      Lane(0xE841E347AB345379))
  }

  function Pow2(): Flat {
    Flat(
      Lane(0x709787EEA87DD873), Lane(0x792B21DD09297CC3), Lane(0x032F081650A83777), Lane(0x38DE316EFD006948),
      Lane(0x7A76408647E3BC83), Lane(0x7D2688F6C1162700), Lane(0xDC1203B901B206A4), Lane(0x51CAB6D24C492B45),
      Lane(0x8F8E07C47DC0477E), Lane(0x7148D43D507B3E68), Lane(0x12FAD3C4F90AA105), Lane(0xEFE355D088698850),
      Lane(0x6FBDA9C2F0D6BF43), Lane(0xAB0E610BD84DE209), Lane(0x790A4A1C9747ABAB), Lane(0xA72B2F7FDA8B2578),
      Lane(0xA8A79FE4184E5277), Lane(0xDE183AC39E760894), Lane(0x0B86014800224D16), Lane(0x2AD75477B8200D99),
      Lane(0x777EC254198C45ED), Lane(0x2A8C74F8CCF52CCA), Lane(0x45E74CC00B13FE05), Lane(0xFB7713AA92104777),
      Lane(0xC5BFF8153688DC8E))
  }

  function Pow3(): Flat {
    Flat(
      Lane(0xF8EB4E6B9E629833), Lane(0xB13C75E92504D837), Lane(0x02F9A7F2453A6544), Lane(0xF0EC7BBC0D2AE300),
      Lane(0x36BE373AF8C1AFCD), Lane(0xCBA7DEC2DA2E195E), Lane(0x21C1E5DC5F9108BE), Lane(0xB02DC88BEF368AFE),
      Lane(0x89E871DEEF8B3729), Lane(0x6A890B55FC549B67), Lane(0xF6E464CDD1F3F088), Lane(0x5D6825330C5ADC80),
      Lane(0x2A7FC5AC0C67CCCD), Lane(0x9483DA9512F41099), Lane(0x2E0EE6809CB5E316), Lane(0xD9CC10B87426E2B1),
      Lane(0x6F4A6F27199C107F), Lane(0xE699F4B18DD3C196), Lane(0xD76EAF88D451E5CA), Lane(0x1E470C902C6FB9E4),
      Lane(0x86A0168A2C55CDDC), Lane(0x5D09AC9385C5BAF1), Lane(0xBA7A110558A07BFF), Lane(0xDB0876DD68E8DCA8),
      Lane(0xBB7BD4543556D583))
  }

  function Pow4(): Flat {
    Flat(
      Lane(0x50CDE9A74F54BE5E), Lane(0x5510347978E1A342), Lane(0x0C8D283BDC02C9B9), Lane(0x87D4AE642671C1BF),
      Lane(0xC856EA90B5D09AC4), Lane(0x358C5CCA9D9AF3E8), Lane(0x6833B1AE7A0DAA16), Lane(0x6228DC000B31B275),
      Lane(0x28995FE358F4654C), Lane(0xF0EF6C9B473CE8CD), Lane(0x065492627C7B6905), Lane(0x274B5F640475D3EB),
      Lane(0x86D7DFF885FF1B06), Lane(0x2F218D810A2866CA), Lane(0xEF3AAC81EE262E05), Lane(0xB97DAB68F91673E5),
      Lane(0xE92F9BEE70F9308A), Lane(0xF0369CAF3FC1570C), Lane(0x60EF5A0E5A5C5987), Lane(0x41331ABBEBF8CB3A),
      Lane(0xAF3B5A610E9DC998), Lane(0xC459D41FBCB5782C), Lane(0xF986EAE10305D6B4), Lane(0xA6A0BB63CEE3EA48),
      Lane(0x7D378502C8A14975))
  }

  function Pow5(): Flat {
    Flat(
      Lane(0x85637611D76C84AC), Lane(0xA3CBBBEEC183AFF7), Lane(0x3247997F72865C58), Lane(0xACCF7E60EA62C44E),
      Lane(0xC719EF5D89C4DFBC), Lane(0xF345C3401B198098), Lane(0x1F45546346B782AF), Lane(0x3F3BAEA6333C1BE4),
      Lane(0x1EB02ABF34DF57AA), Lane(0x24DBFC94C15AD2CD), Lane(0x47ACB8FDF59EE793), Lane(0x7F5535C9F1B4E0BF),
      Lane(0xD4620C7236137376), Lane(0x77ABFCF2A79E043D), Lane(0x0F0ED794CF84AA23), Lane(0xBFF49CB11B3596DB),
      Lane(0xF3348103122C9272), Lane(0x54C98701E2BC4A46), Lane(0x9BB088A9605CB7FF), Lane(0xFD906C868897EDB7),
      Lane(0x0DC5346A6EF6FC51), Lane(0x058D226C0405E13C), Lane(0xA699F3A5BF4EF347), Lane(0x78D6299A9FFDD2A4),
      Lane(0x9A30EE18E6689191))
  }

  function Pow6(): Flat {
    Flat(
      Lane(0x1C8D53C57ED12096), Lane(0x85306C36BE7461E2), Lane(0xD20EDB4D677908E9), Lane(0x40B2F911B83CC4CB),
      Lane(0xEA7A320CDC72AB9D), Lane(0x811F2CB2011797CA), Lane(0xB654FC13374D11B9), Lane(0x2BE2B052E15219A4),
      Lane(0xE0352822F64CCB94), Lane(0x2D9323175A1C153C), Lane(0xDD551167A8BC12B4), Lane(0xCE720E97E41916D1),
      Lane(0xF66C157F1746EB5E), Lane(0xB92F7698D62D24D4), Lane(0x01DD75116DDFB1F7), Lane(0xACB039FFAE3EE7CD),
      Lane(0x0CF32FE92EE2F915), Lane(0xC87E83C7BFCA7B21), Lane(0x9EB37E9825E51663), Lane(0x940702EB12A775FB),
      Lane(0xF934109923C291B5), Lane(0x405111DC83F6EFB1), Lane(0xEB2D791727E3B470), Lane(0x1671E236BDD24987),
      Lane(0x46A9E7706A4DE81D))
  }

  function Pow7(): Flat {
    Flat(
      Lane(0xEA6BB35B89FD52F3), Lane(0x3AEADF6B83003FF6), Lane(0x671B4E2260DB03FD), Lane(0x0A39C2D1A9112A95),
      Lane(0x44263B6A8CD4BAD5), Lane(0x396CF50F0C1747EC), Lane(0xE7EED7BE473D8BE9), Lane(0x723F1A3CCCBB03CD),
      Lane(0x8874600E6C2AEEB5), Lane(0x698BB7433FC84581), Lane(0x84CA4C606DAC336D), Lane(0xC89DB54E6C267163),
      Lane(0x17FB7D29E03998F2), Lane(0x781706A7A03334CF), Lane(0x600D704F8D627F1D), Lane(0x7248AF4682BDA035),
      Lane(0x00EB6B7A4F8EEB44), Lane(0xDC1086D0DAAD165A), Lane(0x20ED171763E4B9A9), Lane(0xA515C75CC9D06399),
      Lane(0x145A977829E64406), Lane(0xD878E8755FFE5CFF), Lane(0x7CE4625430E164E8), Lane(0x1B20C1E687F4E778),
      Lane(0xF9F517ACFFE9C17D))
  }

  function Pow8(): Flat {
    Flat(
      Lane(0xE51DA02C697C578B), Lane(0xD9DC340667AD3C80), Lane(0x1DF612DED7B524F4), Lane(0x10292F26917889D0),
      Lane(0x988C6730BC7176F7), Lane(0x81E8C813F08A2534), Lane(0x1EEF8EB2A3DCF22D), Lane(0x3CB0FFEAA8FAA330),
      Lane(0xBE1C26EDF0EAEC33), Lane(0x5A5B119E7203F340), Lane(0xEEC9FD2F5BDC728C), Lane(0x0A20EE15884359CC),
      Lane(0x73215527C763211C), Lane(0xB81169CFE3252783), Lane(0x1B2D470EAC917178), Lane(0xA84F3D870F257D9F),
      Lane(0x62E33C98BFEA0A0D), Lane(0x04608688209E28B4), Lane(0x82EF84F99A70593D), Lane(0x12BB8B3D59BB6D48),
      Lane(0xEA65756864B26A14), Lane(0x97C040E86121CA10), Lane(0x87ABD0E05033614F), Lane(0x10C0CEFA0D7DB1F5),
      Lane(0xB2410EF34B6C39DE))
  }

  function Pow9(): Flat {
    Flat(
      Lane(0xB47DCDE10DBE1BE1), Lane(0x217B765CCC6B81B6), Lane(0xDD190A79134E026E), Lane(0x43EB579EC52E3862),
      Lane(0xE442E1712F40490D), Lane(0x22918164037B4ABF), Lane(0x86554C12EEB4F758), Lane(0x7BC9739208D60D6B),
      Lane(0x9176435585BA127A), Lane(0x5293F99495B3492C), Lane(0xB531780C9E30D263), Lane(0x29A8894B0760C743),
      Lane(0x93139BD0A52075CE), Lane(0xB838EF1357C8F3EF), Lane(0x42144091D35F8916), Lane(0xECE9C91A022557B3),
      Lane(0x14C13150898ECFC8), Lane(0xBFAC5783BE61C899), Lane(0x7EEF4E18350CD883), Lane(0x74315D08D5A71D56),
      Lane(0x63C41B87DB0D33E2), Lane(0x174AF5907F7C85A1), Lane(0x18E35206A5A7707F), Lane(0xCFA665424632D4B5),
      Lane(0x6237C7D1421C0FBE))
  }

  function Pow10(): Flat {
    Flat(
      Lane(0x4C8CEDC36D1A761B), Lane(0xD7C7725A46528ED9), Lane(0x617E291E7F600DFF), Lane(0xD78D8B23B2377B34),
      Lane(0xB79CFD49C76C3046), Lane(0x95C7758D15EEF357), Lane(0xC37B7404214F09BB), Lane(0x6F02A94EC12535A8),
      Lane(0x6C1EFFE2030D3205), Lane(0x4666F2B8D5C4ECAF), Lane(0xF9309C63B6DFE108), Lane(0x5729D4E6D39743F4),
      Lane(0x2E9B3E09FB0E471B), Lane(0x3D611248FE03CFF5), Lane(0xDCCF4E813FD26664), Lane(0xDE444A90A9236D6E),
      Lane(0xFF533C7968E4C419), Lane(0x219825122181F380), Lane(0x98E51064C44F5E72), Lane(0x06AA890AA397E320),
      Lane(0x7AFB764E06B19C8A), Lane(0xE455F698B92E15D6), Lane(0x6BC136A59C9D9FD8), Lane(0x5307CE2263C87C35),
      Lane(0xFE8F7B75293DFB2B))
  }

  function Pow11(): Flat {
    Flat(
      Lane(0x38E2683FCAC62E5E), Lane(0xE987692C2433AE07), Lane(0x14CB27FD5AAE1AFD), Lane(0x728619630D2B9F71),
      Lane(0x6F9611BC3C0A6F85), Lane(0x607C0CB2195A6409), Lane(0xBFDDE19F355099F9), Lane(0x793CB4D6F86F49A4),
      Lane(0x6EA225CFDB8BDB33), Lane(0x6C2D8BE843941392), Lane(0x1E7FEBCB376BFAB3), Lane(0x6C702295441E7FAB),
      Lane(0xB71E6737D96BE486), Lane(0x3A7023E1F66EE2C2), Lane(0xB7CDAF9012E87E7F), Lane(0x477D0CFC2758B1BB),
      Lane(0xAFC7FCEB4B316282), Lane(0x4A4EB10B83D1FE30), Lane(0x250E4F2673E7F014), Lane(0xA4112A06CBD37C2E),
      Lane(0x2953837210D6D460), Lane(0xEE5C64AACDCA7632), Lane(0x1FC491C42BA75478), Lane(0xCF8BB552F7831F88),
      Lane(0xD1B61650A9EEB0E8))
  }

  function Pow12(): Flat {
    Flat(
      Lane(0xC6514742C2F14334), Lane(0x055B9D9B4F8B25F9), Lane(0xADDAF8C9A0DB9813), Lane(0x1876D08C39C471F1),
      Lane(0x6D90B270C0EC973F), Lane(0x4E6621DB47841570), Lane(0xE5965FD60D9F9760), Lane(0xC84CB8B6ED6A5EB9),
      Lane(0x519653F84B70CB57), Lane(0x2FBAD13E1E25B152), Lane(0x9B7BCAC2B1E8A1E7), Lane(0x991B949125F3D217),
      Lane(0x8C460AC2146D504A), Lane(0x59CFAE49AB7BCC15), Lane(0xF83ED25E82112183), Lane(0x43DC54652D962EA8),
      Lane(0x155132D5ECC60EFD), Lane(0xA06FAAB15B4E65F8), Lane(0x85BF188482F2530E), Lane(0x52C268E2E55AD8CC),
      Lane(0x7DF8F9FE313BA908), Lane(0xDBB0019380C9233B), Lane(0x189C8F812109BC89), Lane(0x2329FE0B8CD2561E),
      Lane(0xE1523717E82E20AE))
  }

  function Pow13(): Flat {
    Flat(
      Lane(0xE9E94A83134C8F20), Lane(0x97A452A7E828D41C), Lane(0x785B33501BC3ECC8), Lane(0x5852660FF0F5D694),
      Lane(0xE9CD4FC064D2034E), Lane(0xDF960C0A1527C4EA), Lane(0x88F919E26E7DED19), Lane(0x24CF743FBC802557),
      Lane(0x3FBBF35FF881F454), Lane(0xD8129D0FFAFFDBC1), Lane(0x08AFE62B69195789), Lane(0x21B2125092750C02),
      Lane(0x4C4A7FE41823CA79), Lane(0xAFE2D2E29440FC0E), Lane(0xF2ADCD4F2670404F), Lane(0xD213310D903B538A),
      Lane(0x37815446BBCB65A5), Lane(0xC6692D6BDCF0D8BA), Lane(0xAC3D679CF7F87605), Lane(0x9AE5059E44CC10C6),
      Lane(0x1DB78387A1336A85), Lane(0xFF8FB6309B8791E8), Lane(0xCD31062DB891262A), Lane(0xD913E8C06CE32451),
      Lane(0xB0732157E1FBA151))
  }

  function Pow14(): Flat {
    Flat(
      Lane(0xED5E250B66D5E579), Lane(0x1B4955502BC11E00), Lane(0x2388240702FAE89F), Lane(0x14E6C4BF5DA78A60),
      Lane(0xB15BC66809D4A3EF), Lane(0x65534AB4F856423D), Lane(0x0814B05ED40075D1), Lane(0xCC761CA0B517B7D0),
      Lane(0x5640BC3BA53F2A43), Lane(0xB23775D3547C6208), Lane(0xC110C4AE02A2063D), Lane(0x1957A079BDEFCEAA),
      Lane(0x6AE978A7AEC77B6D), Lane(0xAB71ACD71774D4FD), Lane(0x20647202A9412E41), Lane(0xD661434A6DFA8692),
      Lane(0x8A26808C3B343C36), Lane(0x208E81642CC39915), Lane(0xF5027143E052A471), Lane(0x8117ED080D892ECF),
      Lane(0xEC3C426F786C5DEF), Lane(0xC6CB6B6348E5AF2C), Lane(0x33CD28573710C0EE), Lane(0x09D0D1DE68FD01C6),
      Lane(0xE51DB68DCFF99B20))
  }

  function Pow15(): Flat {
    Flat(
      Lane(0x07AB720712CF4972), Lane(0x5F4766725A8065F4), Lane(0x9BF4FCE0297D5F0F), Lane(0x8300B32FB77F3825),
      Lane(0x3DCEAB8DE39041A2), Lane(0x4B8EDC3038E2F51F), Lane(0x765227BD3786497B), Lane(0xD6AC1850BE2D8DB1),
      Lane(0x77B2FAA97FD9A7FA), Lane(0xBFA40CEE3F1900AB), Lane(0x91614C2C2B2F3F6D), Lane(0xA5DA68521BC176F8),
      Lane(0x3CF16E3F64F65167), Lane(0x1B8DE579E6028A5A), Lane(0x331A153F3D505B46), Lane(0x538F68B07202DB26),
      Lane(0xD3070A73FF2BD9AB), Lane(0xF7612CC6B83865D2), Lane(0x91DE25EDE4C3EF07), Lane(0x0D0182461CEF3640),
      Lane(0x21D9C889BF689F85), Lane(0x8D472AA0B165F660), Lane(0xF28DDCAFF2A960E0), Lane(0x28312239B4688970),
      Lane(0xE0AE4CF71285DA1E))
  }

  function Pow16(): Flat {
    Flat(
      Lane(0x78630474DCE6C11A), Lane(0xC830E37CA947A82C), Lane(0x0EFFD718B9A94701), Lane(0xBC185210BD8F80BC),
      Lane(0x98F69E1EE8ABD296), Lane(0x6812F7AEE8FFB328), Lane(0xBA775C6D9269FD06), Lane(0x54853289AC354679),
      Lane(0xAE79579BF79BA925), Lane(0x01B97827E7C79A55), Lane(0xB8BF86FAC8275B86), Lane(0x143CDA24BEC5EB6B),
      Lane(0x834022C52D99ECAE), Lane(0xD5B208E3F1C2EA05), Lane(0xDBE0D7222D37C00A), Lane(0x136A056CA3A9C7A6),
      Lane(0xD4BF8F3BC5FE643C), Lane(0x0B7E36371EE00F49), Lane(0xB9E50B1F42EC8023), Lane(0xDDF148B2008018FB),
      Lane(0xBF3471FF0E6B9B5C), Lane(0x995120FCC20C47F6), Lane(0xEF2199B5D69D58EB), Lane(0x978C15969E7F80D9),
      Lane(0x2BB7713CFD8CB4F5))
  }

  function Pow17(): Flat {
    Flat(
      Lane(0x0B94DA9901BAD7C1), Lane(0x4F8A8840A9C73270), Lane(0x5F910BDD0A3DFB89), Lane(0xDFC0964E7B9DA64E),
      Lane(0x1C24CA0EBF06D2FF), Lane(0x8EDD5F64FE8AD236), Lane(0xAE1136A71B1A9E32), Lane(0x59A0D6D08A1B62DB),
      Lane(0x31B6C478E76EBC14), Lane(0xA2FA2E1BB335E875), Lane(0x489C66C7E4955315), Lane(0x5B37FBBC29E64EF6),
      Lane(0xAD596809FF067820), Lane(0x279817041DB10139), Lane(0xA31CDC061B777F31), Lane(0x496097FC616A747C),
      Lane(0x5C39CE98B50265A5), Lane(0x9A68FA7B427B3599), Lane(0x24A32DAA0A04BDCB), Lane(0x1259736CF7D420F0),
      Lane(0x7D871682B16D8741), Lane(0x75FD60F7734C8EAC), Lane(0xC17BF8153166D3F6), Lane(0xFA30E3E3607AFEE1),
      Lane(0x9E57A29CCE1539EF))
  }

  function Pow18(): Flat {
    Flat(
      Lane(0x6089F59081D99BBE), Lane(0x039E6D1D60F3D485), Lane(0xC518F01D5CAE4572), Lane(0x244B2760E6AF6825),
      Lane(0xB80FA6F648A43A53), Lane(0xC2A8ABA1A702AF6F), Lane(0x1F5CD453A03576BE), Lane(0xDA1FCA63C0DC8757),
      Lane(0x59EA89BEB8C30EFF), Lane(0x338954F4CF793D4B), Lane(0xFC8E009E6E7733EE), Lane(0x0CEE564161A5FF29),
      Lane(0xF4990D7ED9A0DCEF), Lane(0x48A7972B793717F7), Lane(0xA464504B23FBE679), Lane(0xA79FDF602C59AD26),
      Lane(0xAE599A80984D1C02), Lane(0xFFFD21ECF2B4050B), Lane(0xC1CE48B34693B3D2), Lane(0xBD69D214DF374F90),
      Lane(0x3F86FC24A0CCC29B), Lane(0x28302E0C934B2949), Lane(0x37B6D3A102C9EA32), Lane(0x02774BFDDB5CEF62),
      Lane(0xB090B3CEC843B921))
  }

  function Pow19(): Flat {
    Flat(
      Lane(0x2E38C51D674D9CD5), Lane(0x2FDF3AE4B212B575), Lane(0xEBF460DD50566267), Lane(0x7922B2099635C98C),
      Lane(0xCD6D9649415C52F0), Lane(0x232A6B672671B616), Lane(0x3B8B9C549DB48729), Lane(0x99EA9A567D7F3D65),
      Lane(0xD0A685ADC9B402B5), Lane(0x51142F32A2B49A83), Lane(0x87436CCB97383D41), Lane(0x713A25AB75CC0D2C),
      Lane(0x83947C834E1E4FB2), Lane(0xBF15586659B93347), Lane(0x6AF91C5477A5C476), Lane(0x15D25105525EE71F),
      Lane(0x08AE900851B93314), Lane(0xFEE5463A09D92327), Lane(0xC51E14CAD322626F), Lane(0x394115C116894771),
      Lane(0xA70887307130CE04), Lane(0x564F8F75EE228C7F), Lane(0xAAAE144F3B6893A8), Lane(0x89DC19581D1FBC97),
      Lane(0xF4A065B57AB3A8DE))
  }

  function Pow20(): Flat {
    Flat(
      Lane(0xE24720EE1DF97E01), Lane(0x7F96B58832826EBD), Lane(0x27A43E7DF57A15AF), Lane(0x604A61E3E0838B8D),
      Lane(0x5623C2189ED8374D), Lane(0x2A31C24F5EA25E24), Lane(0xC6AA434CD3FFA507), Lane(0x7DECAA6C2D36DDEA),
      Lane(0xDAFB4D1AB7AEC4F3), Lane(0xA038ED810887CAC5), Lane(0xF0AE0D9D902BB56E), Lane(0xB4FEBC562138DD97),
      Lane(0xF370A228FEBB0684), Lane(0x15789D111094D734), Lane(0xAAC9AAD29777A558), Lane(0x033E6C422FB646E0),
      Lane(0x5B4DF2B7A7587FF7), Lane(0x3A6714E82D6B6E11), Lane(0x0C7A9E19521938C6), Lane(0xA01BCEC342F45FCA),
      Lane(0x09796F06C560EBD4), Lane(0xEB01D4EEB2E44EF3), Lane(0xBB5B292C7E2D4E8E), Lane(0x9C2A04B35111075B),
      Lane(0x731C5C57D383CE46))
  }

  function Pow21(): Flat {
    Flat(
      Lane(0x9DEEFF2A8217648F), Lane(0xE41CA8235BA8A295), Lane(0xABE90099669BBD79), Lane(0x5F666448A4234B97),
      Lane(0x0BE9795E5FD3CA7F), Lane(0x1B54D77AA54E5652), Lane(0x737376B3DFC98552), Lane(0x2F267EE97861D348),
      Lane(0xA3269A29C00EAEA9), Lane(0xCF1FC2ED3ED74D60), Lane(0x1889A91644CFB0EC), Lane(0xCD1048FC62A519E7),
      Lane(0xA689BF571422B972), Lane(0x873D75754908E3C6), Lane(0x411FFBFD984FBDC1), Lane(0xF04B6E4130013A84),
      Lane(0x42BD3A8DEC8AEC52), Lane(0x8DB757CF84E1504B), Lane(0xD61393FB832B5CE9), Lane(0xBC1F149C3E84DF09),
      Lane(0x7C4F1144B9F4BF4A), Lane(0x38F46DB364315474), Lane(0x456118E8372E1892), Lane(0x2E85DFE3C53C0320),
      Lane(0x246817018487E8D6))
  }

  function Pow22(): Flat {
    Flat(
      Lane(0xC43D0A541B200C03), Lane(0x584E8AD6716F06EA), Lane(0xCC68B64F8606ED69), Lane(0x8BAAA59A3E00F2F3),
      Lane(0x10E20FDEAFC97083), Lane(0xC0290DEEB9EDA0DE), Lane(0x466802809AEEE92F), Lane(0x0F93494EDB238E0C),
      Lane(0xDB3954B5D311ECD8), Lane(0xFA1018E553F4ACBF), Lane(0xC03582CF27CD1407), Lane(0x28CE69F15EB90F40),
      Lane(0xE62D96C235B92219), Lane(0x9D3F13407648F617), Lane(0x7104F13EE12C4DB3), Lane(0xBF2BB6EE01E7FE3E),
      Lane(0xABD571E0786221D0), Lane(0xAA17DA69E16C1EAC), Lane(0x0B428A5CB216153B), Lane(0xB86B68C62FEABB47),
      Lane(0x664691C6FFA01945), Lane(0xB8BB5541F7E180D9), Lane(0x4E7DABF7CD41A9B3), Lane(0x6C77136B775E6D5B),
      Lane(0x67337BCEF1AA766B))
  }

  function Pow23(): Flat {
    Flat(
      Lane(0xC1871565292E52A8), Lane(0xA4E29D8ECBC626EA), Lane(0xDA1872F0D93EAC19), Lane(0x09DA61BBEACAF65F),
      Lane(0xF52B9ECD165D59C8), Lane(0xC3417399E974E999), Lane(0xF23FB6300A36010A), Lane(0x793EDF748E4D55F6),
      Lane(0xDA56CE6978647525), Lane(0xF7E7B7283B793912), Lane(0x88D4310307975A99), Lane(0xABC9BE927EEF8E77),
      Lane(0x9D60B56A6FC21B55), Lane(0x6FB734E771921120), Lane(0xFA17A80B739123D1), Lane(0xE372BA5EEA57818A),
      Lane(0xE8A45714F1AB4BF0), Lane(0xE1EC5EB376C19AF9), Lane(0x74F593E6FFCEFDD0), Lane(0x62A1D2E13D156352),
      Lane(0x2E0733DEC240CD33), Lane(0xFE8BE5526818101A), Lane(0xC38D426884636EB4), Lane(0xA5432A0751B0FE6C),
      Lane(0x4AF7D2992E9CCEBC))
  }

  function Pow24(): Flat {
    PowTable().(a10 := Lane(0x0F96070540F14A0E), a16 := Lane(0x8F06DD1C7A2F851A))
  }

  lemma PowFirst()
    ensures Encodable(POW_NAME) && |Prefix(POW_NAME)| == RATE
    ensures XorBytes(EmptyState(), Prefix(POW_NAME), RATE) == StateOf(Pow0())
  {
    hide XorBytes, Prefix, LaneAt, ByteCount;
    PowLanes();
    forall l | 0 <= l < 25
      ensures XorBytes(EmptyState(), Prefix(POW_NAME), RATE)[l] == StateOf(Pow0())[l]
    {
      FirstBlockLane(Prefix(POW_NAME), l);
    }
  }

  lemma PowRound0()
    ensures Follows(Pow0(), Lane(0x0000000000000001), Pow1())
  {
    var round := RoundIs(Pow0(), TraceOf(Pow0()), Lane(0x0000000000000001), Pow1());
  }

  lemma PowRound1()
    ensures Follows(Pow1(), Lane(0x0000000000008082), Pow2())
  {
    var round := RoundIs(Pow1(), TraceOf(Pow1()), Lane(0x0000000000008082), Pow2());
  }

  lemma PowRound2()
    ensures Follows(Pow2(), Lane(0x800000000000808A), Pow3())
  {
    var round := RoundIs(Pow2(), TraceOf(Pow2()), Lane(0x800000000000808A), Pow3());
  }

  lemma PowRound3()
    ensures Follows(Pow3(), Lane(0x8000000080008000), Pow4())
  {
    var round := RoundIs(Pow3(), TraceOf(Pow3()), Lane(0x8000000080008000), Pow4());
  }

  lemma PowRound4()
    ensures Follows(Pow4(), Lane(0x000000000000808B), Pow5())
  {
    var round := RoundIs(Pow4(), TraceOf(Pow4()), Lane(0x000000000000808B), Pow5());
  }

  lemma PowRound5()
    ensures Follows(Pow5(), Lane(0x0000000080000001), Pow6())
  {
    var round := RoundIs(Pow5(), TraceOf(Pow5()), Lane(0x0000000080000001), Pow6());
  }

  lemma PowRound6()
    ensures Follows(Pow6(), Lane(0x8000000080008081), Pow7())
  {
    var round := RoundIs(Pow6(), TraceOf(Pow6()), Lane(0x8000000080008081), Pow7());
  }

  lemma PowRound7()
    ensures Follows(Pow7(), Lane(0x8000000000008009), Pow8())
  {
    var round := RoundIs(Pow7(), TraceOf(Pow7()), Lane(0x8000000000008009), Pow8());
  }

  lemma PowRound8()
    ensures Follows(Pow8(), Lane(0x000000000000008A), Pow9())
  {
    var round := RoundIs(Pow8(), TraceOf(Pow8()), Lane(0x000000000000008A), Pow9());
  }

  lemma PowRound9()
    ensures Follows(Pow9(), Lane(0x0000000000000088), Pow10())
  {
    var round := RoundIs(Pow9(), TraceOf(Pow9()), Lane(0x0000000000000088), Pow10());
  }

  lemma PowRound10()
    ensures Follows(Pow10(), Lane(0x0000000080008009), Pow11())
  {
    var round := RoundIs(Pow10(), TraceOf(Pow10()), Lane(0x0000000080008009), Pow11());
  }

  lemma PowRound11()
    ensures Follows(Pow11(), Lane(0x000000008000000A), Pow12())
  {
    var round := RoundIs(Pow11(), TraceOf(Pow11()), Lane(0x000000008000000A), Pow12());
  }

  lemma PowRound12()
    ensures Follows(Pow12(), Lane(0x000000008000808B), Pow13())
  {
    var round := RoundIs(Pow12(), TraceOf(Pow12()), Lane(0x000000008000808B), Pow13());
  }

  lemma PowRound13()
    ensures Follows(Pow13(), Lane(0x800000000000008B), Pow14())
  {
    var round := RoundIs(Pow13(), TraceOf(Pow13()), Lane(0x800000000000008B), Pow14());
  }

  lemma PowRound14()
    ensures Follows(Pow14(), Lane(0x8000000000008089), Pow15())
  {
    var round := RoundIs(Pow14(), TraceOf(Pow14()), Lane(0x8000000000008089), Pow15());
  }

  lemma PowRound15()
    ensures Follows(Pow15(), Lane(0x8000000000008003), Pow16())
  {
    var round := RoundIs(Pow15(), TraceOf(Pow15()), Lane(0x8000000000008003), Pow16());
  }

  lemma PowRound16()
    ensures Follows(Pow16(), Lane(0x8000000000008002), Pow17())
  {
    var round := RoundIs(Pow16(), TraceOf(Pow16()), Lane(0x8000000000008002), Pow17());
  }

  lemma PowRound17()
    ensures Follows(Pow17(), Lane(0x8000000000000080), Pow18())
  {
    var round := RoundIs(Pow17(), TraceOf(Pow17()), Lane(0x8000000000000080), Pow18());
  }

  lemma PowRound18()
    ensures Follows(Pow18(), Lane(0x000000000000800A), Pow19())
  {
    var round := RoundIs(Pow18(), TraceOf(Pow18()), Lane(0x000000000000800A), Pow19());
  }

  lemma PowRound19()
    ensures Follows(Pow19(), Lane(0x800000008000000A), Pow20())
  {
    var round := RoundIs(Pow19(), TraceOf(Pow19()), Lane(0x800000008000000A), Pow20());
  }

  lemma PowRound20()
    ensures Follows(Pow20(), Lane(0x8000000080008081), Pow21())
  {
    var round := RoundIs(Pow20(), TraceOf(Pow20()), Lane(0x8000000080008081), Pow21());
  }

  lemma PowRound21()
    ensures Follows(Pow21(), Lane(0x8000000000008080), Pow22())
  {
    var round := RoundIs(Pow21(), TraceOf(Pow21()), Lane(0x8000000000008080), Pow22());
  }

  lemma PowRound22()
    ensures Follows(Pow22(), Lane(0x0000000080000001), Pow23())
  {
    var round := RoundIs(Pow22(), TraceOf(Pow22()), Lane(0x0000000080000001), Pow23());
  }

  lemma PowRound23()
    ensures Follows(Pow23(), Lane(0x8000000080008008), Pow24())
  {
    var round := RoundIs(Pow23(), TraceOf(Pow23()), Lane(0x8000000080008008), Pow24());
  }

  lemma PowRounds4()
    ensures Rounds(StateOf(Pow0()), 4) == StateOf(Pow4())
  {
    hide Round, Rounds, StateOf, Follows, Pow0, Pow1, Pow2, Pow3, Pow4;
    NoRounds(StateOf(Pow0()));
    PowRound0();
    NextRound(StateOf(Pow0()), 0, Pow0(), Lane(0x0000000000000001), Pow1());
    PowRound1();
    NextRound(StateOf(Pow0()), 1, Pow1(), Lane(0x0000000000008082), Pow2());
    PowRound2();
    NextRound(StateOf(Pow0()), 2, Pow2(), Lane(0x800000000000808A), Pow3());
    PowRound3();
    NextRound(StateOf(Pow0()), 3, Pow3(), Lane(0x8000000080008000), Pow4());
  }

  lemma PowRounds8()
    ensures Rounds(StateOf(Pow0()), 8) == StateOf(Pow8())
  {
    hide Round, Rounds, StateOf, Follows, Pow0, Pow4, Pow5, Pow6, Pow7, Pow8;
    PowRounds4();
    PowRound4();
    NextRound(StateOf(Pow0()), 4, Pow4(), Lane(0x000000000000808B), Pow5());
    PowRound5();
    NextRound(StateOf(Pow0()), 5, Pow5(), Lane(0x0000000080000001), Pow6());
    PowRound6();
    NextRound(StateOf(Pow0()), 6, Pow6(), Lane(0x8000000080008081), Pow7());
    PowRound7();
    NextRound(StateOf(Pow0()), 7, Pow7(), Lane(0x8000000000008009), Pow8());
  }

  lemma PowRounds12()
    ensures Rounds(StateOf(Pow0()), 12) == StateOf(Pow12())
  {
    hide Round, Rounds, StateOf, Follows, Pow0, Pow8, Pow9, Pow10, Pow11, Pow12;
    PowRounds8();
    PowRound8();
    NextRound(StateOf(Pow0()), 8, Pow8(), Lane(0x000000000000008A), Pow9());
    PowRound9();
    NextRound(StateOf(Pow0()), 9, Pow9(), Lane(0x0000000000000088), Pow10());
    PowRound10();
    NextRound(StateOf(Pow0()), 10, Pow10(), Lane(0x0000000080008009), Pow11());
    PowRound11();
    NextRound(StateOf(Pow0()), 11, Pow11(), Lane(0x000000008000000A), Pow12());
  }

  lemma PowRounds16()
    ensures Rounds(StateOf(Pow0()), 16) == StateOf(Pow16())
  {
    hide Round, Rounds, StateOf, Follows, Pow0, Pow12, Pow13, Pow14, Pow15, Pow16;
    PowRounds12();
    PowRound12();
    NextRound(StateOf(Pow0()), 12, Pow12(), Lane(0x000000008000808B), Pow13());
    PowRound13();
    NextRound(StateOf(Pow0()), 13, Pow13(), Lane(0x800000000000008B), Pow14());
    PowRound14();
    NextRound(StateOf(Pow0()), 14, Pow14(), Lane(0x8000000000008089), Pow15());
    PowRound15();
    NextRound(StateOf(Pow0()), 15, Pow15(), Lane(0x8000000000008003), Pow16());
  }

  lemma PowRounds20()
    ensures Rounds(StateOf(Pow0()), 20) == StateOf(Pow20())
  {
    hide Round, Rounds, StateOf, Follows, Pow0, Pow16, Pow17, Pow18, Pow19, Pow20;
    PowRounds16();
    PowRound16();
    NextRound(StateOf(Pow0()), 16, Pow16(), Lane(0x8000000000008002), Pow17());
    PowRound17();
    NextRound(StateOf(Pow0()), 17, Pow17(), Lane(0x8000000000000080), Pow18());
    PowRound18();
    NextRound(StateOf(Pow0()), 18, Pow18(), Lane(0x000000000000800A), Pow19());
    PowRound19();
    NextRound(StateOf(Pow0()), 19, Pow19(), Lane(0x800000008000000A), Pow20());
  }

  lemma PowRounds24()
    ensures Rounds(StateOf(Pow0()), 24) == StateOf(Pow24())
  {
    hide Round, Rounds, StateOf, Follows, Pow0, Pow20, Pow21, Pow22, Pow23, Pow24;
    PowRounds20();
    PowRound20();
    NextRound(StateOf(Pow0()), 20, Pow20(), Lane(0x8000000080008081), Pow21());
    PowRound21();
    NextRound(StateOf(Pow0()), 21, Pow21(), Lane(0x8000000000008080), Pow22());
    PowRound22();
    NextRound(StateOf(Pow0()), 22, Pow22(), Lane(0x0000000080000001), Pow23());
    PowRound23();
    NextRound(StateOf(Pow0()), 23, Pow23(), Lane(0x8000000080008008), Pow24());
  }

  lemma PowLast()
    ensures |Pad(Zeros(80), 0x04)| == RATE
    ensures XorBytes(StateOf(Pow24()), Pad(Zeros(80), 0x04), RATE) == StateOf(PowTable())
  {
    hide XorBytes, Pad, Xor, PowTable;
    PaddedLane(StateOf(Pow24()), 80, 0);
    PowWords();
    forall l | 0 <= l < 25
      ensures XorBytes(StateOf(Pow24()), Pad(Zeros(80), 0x04), RATE)[l] == StateOf(PowTable())[l]
    {
      PaddedLane(StateOf(Pow24()), 80, l);
    }
  }

  lemma PowWords()
    ensures Xor(Lane(0x0F96070540F14A0E), Lane(4)) == PowTable().a10
    ensures Xor(Lane(0x8F06DD1C7A2F851A), Lane(0x8000_0000_0000_0000)) == PowTable().a16
  {
  }

  /** The kernel's literal table is the state prepared by the name and 80 bytes of message. */
  lemma PowTableIs()
    ensures Encodable(POW_NAME)
    ensures StateOf(PowTable()) == StartState(POW_NAME, 80)
  {
    hide XorBytes, Pad, Prefix, StateOf, Rounds, ByteCount, Pow0, Pow24, PowTable;
    PowFirst();
    PowRounds24();
    PowLast();
    var block := Prefix(POW_NAME);
    assert block[..RATE] == block && block[RATE..] == [];
    assert PrefixState(POW_NAME) == StateOf(Pow24());
  }

  // ---------- "HeavyHash" ----------

  lemma HeavyHead()
    ensures Encodable(HEAVY_NAME)
    ensures LeftEncode(RATE) + EncodeString([]) + EncodeString(HEAVY_NAME) ==
            [1, 136, 1, 0, 1, 72] + HEAVY_NAME
  {
    NamesEncodable();
    SmallNumbers();
  }

  lemma HeavyBlock()
    ensures Encodable(HEAVY_NAME) && |Prefix(HEAVY_NAME)| == RATE
    ensures Prefix(HEAVY_NAME) == [1, 136, 1, 0, 1, 72] + HEAVY_NAME + Zeros(121)
  {
    hide LeftEncode, EncodeString, ByteCount;
    HeavyHead();
  }

  lemma HeavyLanes()
    ensures Encodable(HEAVY_NAME) && |Prefix(HEAVY_NAME)| == RATE
    ensures LaneAt(Prefix(HEAVY_NAME), 0) == Lane(0x6548480100018801)
    ensures LaneAt(Prefix(HEAVY_NAME), 1) == Lane(0x0068736148797661)
    ensures forall l :: 2 <= l < 17 ==> LaneAt(Prefix(HEAVY_NAME), l) == Lane(0)
  {
    hide Prefix, LaneAt, Joined, ByteCount;
    HeavyBlock();
    HeavyJoined0();
    HeavyJoined1();
    var block := Prefix(HEAVY_NAME);
    LaneAtJoined(block, 0);
    LaneAtJoined(block, 1);
    forall l | 2 <= l < 17
      ensures LaneAt(block, l) == Lane(0)
    {
      assert block[8 * l..8 * l + 8] == Zeros(8);
      ZeroLane(block, l);
    }
  }

  lemma HeavyJoined0()
    ensures Joined(1, 136, 1, 0, 1, 72, 72, 101) == Lane(0x6548480100018801)
  {
  }

  lemma HeavyJoined1()
    ensures Joined(97, 118, 121, 72, 97, 115, 104, 0) == Lane(0x0068736148797661)
  {
  }

  // The state before each round; the rounds below check them one by one.

  function Heavy0(): Flat {
    Flat(
      Lane(0x6548480100018801), Lane(0x0068736148797661), Lane(0x0000000000000000), Lane(0x0000000000000000),
      Lane(0x0000000000000000), Lane(0x0000000000000000), Lane(0x0000000000000000), Lane(0x0000000000000000),
      Lane(0x0000000000000000), Lane(0x0000000000000000), Lane(0x0000000000000000), Lane(0x0000000000000000),
      Lane(0x0000000000000000), Lane(0x0000000000000000), Lane(0x0000000000000000), Lane(0x0000000000000000),
      Lane(0x0000000000000000), Lane(0x0000000000000000), Lane(0x0000000000000000), Lane(0x0000000000000000),
      Lane(0x0000000000000000), Lane(0x0000000000000000), Lane(0x0000000000000000), Lane(0x0000000000000000),
      Lane(0x0000000000000000))
  }

  function Heavy1(): Flat {
    Flat(
      Lane(0xA6ABA6C0D3E86E81), Lane(0x1880165484801000), Lane(0xEFB38803879BB8E7), Lane(0x41982EC310F34443),
      Lane(0x3C009014C000A2A4), Lane(0x0687360487934610), Lane(0x31200898082CA909), Lane(0x068A3450A79868DC),
      Lane(0x31002CA909002000), Lane(0x202D0E5D292387C5), Lane(0xCA4076C090F1FCC0), Lane(0x8A8CDA521D4D9A8A),
      Lane(0x0B0A41CBB0080101), Lane(0xD0D0360003E1FE4A), Lane(0x8B16CBD9BD040343), Lane(0x3000188014748514),
      Lane(0x17BE6C1CB41EEC09), Lane(0x2120040006200595), Lane(0x29B0BCBCAD6404B4), Lane(0x0F2EC420090A6829),
      Lane(0x41921DBD1A565C98), Lane(0xE4518400A1858421), Lane(0x11A82161484A2104), Lane(0xA5C398D9F3D5D8B9),
      Lane(0x9521200400062005))
  }

  function Heavy2(): Flat {
    Flat(
      Lane(0x881C4E74EC7D8F52), Lane(0x3570129A95B127E4), Lane(0xBE330405A5687E50), Lane(0xE7B86065206D3800),
      Lane(0x897E04F74EEEC39D), Lane(0x12CC345D40D4A917), Lane(0x025F892D61396EB1), Lane(0x75B7731721542853),
      Lane(0xA51C3766A7CAF94F), Lane(0x63302CBF0F8DCA7C), Lane(0x6C1305B8B7C7ED0D), Lane(0x47DE637AA82E4DC7),
      Lane(0x36EE8F89FC322598), Lane(0xE010DDC199E1DE00), Lane(0x57FD0C249F2BA641), Lane(0x52AF9EDCC99E32B3),
      Lane(0xA487F088C356FF57), Lane(0x1C03718D9174E2E1), Lane(0xC4CC8B56F03304C8), Lane(0x2A2D71216AD62BBD),
      Lane(0x19C2B7A782A19FE3), Lane(0xDFAC687A99D6BB85), Lane(0x52AC3CCA72175A9A), Lane(0x4678393DC5E037D3),
      Lane(0xA95F136343AF8AA9))
  }

  function Heavy3(): Flat {
    Flat(
      Lane(0xE160CA4C13B084EC), Lane(0x33E6A995E347B06D), Lane(0x50EC93CDB64509E9), Lane(0x5A98EF9A4D015010),
      Lane(0xF911B7A5B2F4DC99), Lane(0x66423AA8C6DFEC9E), Lane(0x1CE98B36B9BBE2FA), Lane(0x691A1F62C193118E),
      Lane(0x8581E59C5B27E12B), Lane(0xDB0684B6C5636A0F), Lane(0xDE2B1F92E6272D7B), Lane(0xEB7C9E7CF78F7EFE),
      Lane(0x07C07F011648AD44), Lane(0x69C6446241E8F452), Lane(0xC68D677C5754C058), Lane(0x13464C17C6F14EA8),
      Lane(0xAA923237D69FA153), Lane(0xA6F0B83A12403E76), Lane(0xB456A0233F05BBE0), Lane(0xF3180D2085BACFB2),
      Lane(0x3178575A3D1D95A6), Lane(0x22EDA176D7D872F2), Lane(0x1E274206198C8D9A), Lane(0xEE230FAFB43908EB),
      Lane(0xD4A0FC22BF914B61))
  }

  function Heavy4(): Flat {
    Flat(
      Lane(0x72BA7808D9296965), Lane(0x971A36EAE4C6141B), Lane(0xDDF120944CDB119D), Lane(0xEF7C10DF73A6163C),
      Lane(0x786B7A2B26816183), Lane(0x092F093B64A2C949), Lane(0x14C8DC02DCB8047B), Lane(0x39A9AA54243BA534),
      Lane(0xE65951AABE85515E), Lane(0x23FF51492397A7E2), Lane(0xCE26891DB2DC03EA), Lane(0x99FCE2B51185BA1E),
      Lane(0x7415961F2C7AE50C), Lane(0xD702BECD9F079809), Lane(0xA4F1BC1260AD091F), Lane(0xF7FBF63B872F3587),
      Lane(0xCFF4117357840E08), Lane(0x30218BAA5EF7B85C), Lane(0x6A2AFB7B9EA99CC5), Lane(0x1FEA864CB76BB0E2),
      Lane(0x216857CCACD02735), Lane(0x6FC0D243B34ADC01), Lane(0x67E40B492234712C), Lane(0xC18A0CD079E88D18),
      Lane(0x9EE399B46D61D5A9))
  }

  function Heavy5(): Flat {
    Flat(
      Lane(0x78E3D67BFCD23760), Lane(0xF2914DCD9EDA3BA8), Lane(0x2004FD3D5A5F6C5D), Lane(0xBAB93060AFC81FD8),
      Lane(0x088D6DD15D75C349), Lane(0x2239CDEC3D7011DF), Lane(0x7E8FBE38BDC903FF), Lane(0x25F8A074E89BDB02),
      Lane(0xF0DB21D0A358C92A), Lane(0x6A5A2810F2305086), Lane(0x36F6969E6D338DAD), Lane(0x0351C2E2E3541352),
      Lane(0xC3F27A8DCD78A626), Lane(0xFD3D67D95F1FBDA4), Lane(0x2F76650D67FCAE97), Lane(0x76D1EE68A6D7675F),
      Lane(0x9FE915B0B161C68C), Lane(0x3186D21729F74796), Lane(0xF87558EAACE29496), Lane(0xA6F2CA91EC1EC2C1),
      Lane(0xAF295E7622CA7D21), Lane(0x50E29F1E072CDFCF), Lane(0x4BD2E48B0306FBF4), Lane(0x48E78B8F6758DD44),
      Lane(0x5F004F83DC71F1B4))
  }

  function Heavy6(): Flat {
    Flat(
      Lane(0x4C3800966C5051C0), Lane(0xEFEA4B3A689D62FD), Lane(0xE283017228632081), Lane(0x49F000E43AC58000),
      Lane(0xC6AA0E7F7E73EEE5), Lane(0x50F29AFB44EB5EA8), Lane(0xB7BB7B812DF0A5F1), Lane(0x11632137872329F1),
      Lane(0xD588F219A702E046), Lane(0x638083A561BCF0C0), Lane(0x0FC12CC4798B2186), Lane(0x0FD4760F8C6B0F9A),
      Lane(0x599FB4198453E37E), Lane(0xDB9797F1131B1CEA), Lane(0xB37C890BD8627DD6), Lane(0xD8F2CC1CA2E746AF),
      Lane(0x8BAD15ABFE3DEC06), Lane(0xC3711D956D63A778), Lane(0x09F973C319487BBF), Lane(0x0799293026D3096C),
      Lane(0x9393A7274653C587), Lane(0x371A8BB98CA3549C), Lane(0x3C776743895945C5), Lane(0xA3EF3D85557A8DE0),
      Lane(0x520A12FE8C6CCA6A))
  }

  function Heavy7(): Flat {
    Flat(
      Lane(0xCDB825CC2E33843D), Lane(0x2B5414D623BA406E), Lane(0x3430EA2A7BD55751), Lane(0x37F90E026CE97178),
      Lane(0x80A15970C745238B), Lane(0xC1FD8C949DB83811), Lane(0x14BC4EB699577A68), Lane(0x528F24BB09090F54),
      Lane(0x687CCFB70BB5A3BD), Lane(0xFD96FC0C14A046C5), Lane(0xB8E2B9FBA09774BC), Lane(0x5D5A902A495B15D8),
      Lane(0x8A480EEB6736C08A), Lane(0xAF9BD9B7B6CBB768), Lane(0xE5DC31C24CAC1ACC), Lane(0x97F6A36E76109590),
      Lane(0x2490ED4D54205A9D), Lane(0x05FA36B2E6CCEDF1), Lane(0xCF5F88C3A5D5F9E8), Lane(0xD17058AD30613CC1),
      Lane(0xF4C4A3966D8D2172), Lane(0x878B3FB9D2590A15), Lane(0xD6D47C97315F92BA), Lane(0x2A9C459AE48C8C79),
      Lane(0x1D0D30DB8F87A6F7))
  }

  function Heavy8(): Flat {
    Flat(
      Lane(0xBA18E87AB4400FA4), Lane(0x1D99F7B18CAD0536), Lane(0xBCB4228286E7991B), Lane(0x6BB4B6128C8B237F),
      Lane(0xF5CC8013D32E89AC), Lane(0xBFDE55EC5623DEF7), Lane(0x9A15074E61C07410), Lane(0xFBA3AA3A5DB3FD9B),
      Lane(0x0548D59ADF257D46), Lane(0x8799DBD16D65B9B2), Lane(0xD6EE7345D7F32679), Lane(0x20E1AC1773101E85),
      Lane(0xC8694177C85A5B54), Lane(0x81C960B4BBC57B43), Lane(0x998B1662E9A89487), Lane(0x7875454E15DA3CB4),
      Lane(0x689EF0CA3AF36625), Lane(0x67F31B24A29883D5), Lane(0x685DDF0759FFE2B0), Lane(0xD53E58B73763A8A1),
      Lane(0xC7889CA94A43943F), Lane(0xCBFB545E5C59E9DF), Lane(0x0CD9E7DA8DC05562), Lane(0x02150088E79CB579),
      Lane(0xB6C3AD234CAAAE7C))
  }

  function Heavy9(): Flat {
    Flat(
      Lane(0x9A4AB4A739C70518), Lane(0x4E93CA6FACF10625), Lane(0xFECB5610C0A31EE0), Lane(0x63C73F9A8A578C81),
      Lane(0x526B70EC9EC3F8A1), Lane(0x98C980E94A787F2C), Lane(0xD9A6D66B643C35E2), Lane(0xB6E4D80059B24E7B),
      Lane(0xC3E0F1BD3169903E), Lane(0x806323CE1F256AC9), Lane(0xF84C10623ED284A3), Lane(0x743AA812743A69FD),
      Lane(0xCBAF9EA7D0EBBA29), Lane(0xCBE36C715D775089), Lane(0x55A0971B9A0937B7), Lane(0x038DA7A6ED46D794),
      Lane(0xB671BA3AFFF1E298), Lane(0xE1A501C6C2CD850A), Lane(0x6D16DB0DEF3DF406), Lane(0x2B944654C3029F10),
      Lane(0xE595CAC4BAAA6B9C), Lane(0x70E8A95861D49068), Lane(0xD92C9B639F96CCD0), Lane(0xFE3DDD368A132298),
      Lane(0xAC7081297AA00285))
  }

  function Heavy10(): Flat {
    Flat(
      Lane(0xC50EE9C2CD262ECE), Lane(0xA1D8AB36E4E28537), Lane(0xB81D83CE338C4CA3), Lane(0x62DE28CE6770F468),
      Lane(0x4FE6310567D4CA75), Lane(0x95A6AF87558E02FC), Lane(0x376A858761D40223), Lane(0x984ECA7FCACE09C4),
      Lane(0x60D89AF0F46E1896), Lane(0x23F4BE9997016A28), Lane(0x1CBD3E0BBE460117), Lane(0xAA2DCFAE6ED4FA32),
      Lane(0xDC9BC90EE2EADCD1), Lane(0x957EAF7651E482EE), Lane(0xBEE1B4D8489A43DA), Lane(0xCB81B72B7DAB5A11),
      Lane(0xDD317D4D36C4C6DE), Lane(0xFB94ED0E4024EC7A), Lane(0xFE34E0405C49C8F6), Lane(0x7455E455AFDEACBB),
      Lane(0xDCA0AE2F99EFD4C8), Lane(0xA854BCAF1A34A920), Lane(0x1697508270DAB59E), Lane(0xDD7CBAB768F19453),
      Lane(0x49AFC0594A4A79B9))
  }

  function Heavy11(): Flat {
    Flat(
      Lane(0x7CBBB4719CCDFDF0), Lane(0x2A3734F83D28A6E9), Lane(0x645F5DBB492D640A), Lane(0x54DAA40CA92610BE),
      Lane(0xD358CEDBC21F90F9), Lane(0xDF7801111358F3A6), Lane(0xC78E9151F6563E8B), Lane(0x80422E836EE91916),
      Lane(0x25A8D4A17C5C56EA), Lane(0x86E7FF80EF6B9004), Lane(0x38776033C96B0ECE), Lane(0x717808F8D7572DC8),
      Lane(0x6992085C78934E58), Lane(0x3DE53FE829D0BAFE), Lane(0x8779370B09E21057), Lane(0x60E41E98882D5DA3),
      Lane(0x6715288E953F574D), Lane(0x35428BCB5F7DBB72), Lane(0x51E22D998FE10987), Lane(0x0D03A5BF016A1371),
      Lane(0x26698001520E36C1), Lane(0xCFD780EC08F1471A), Lane(0x85D3DDDE5C94F1BE), Lane(0x8CB3087FFFD3B758),
      Lane(0x824C9EC2917E68F9))
  }

  function Heavy12(): Flat {
    Flat(
      Lane(0x482CE2CBED409F22), Lane(0x2E631E0CB93D25F2), Lane(0x2BF273F3D8C54532), Lane(0x1777C95CC9FA68CF),
      Lane(0x2ABF1D17AF596A69), Lane(0x2D4BD0BC8C1C4FB2), Lane(0xBB51E4905E4E5333), Lane(0x6DC9BA7EA9B958B4),
      Lane(0xB074B2402211D331), Lane(0x106FA5B508CAEA15), Lane(0x1E640BA25163AED7), Lane(0xC03FB469870E2103),
      Lane(0xCC1FC0227517DC49), Lane(0xB518C3146994C123), Lane(0x3C342151D6E84FBA), Lane(0xDF9BA82A9F43EBDE),
      Lane(0x48C597FAAA51759C), Lane(0xE4675FC1CA1CE341), Lane(0xC66EA3F5C73711E1), Lane(0x944EA89B75FA6D38),
      Lane(0x7CF60AE5D63F9DC5), Lane(0x13E9C66955B6535C), Lane(0x4342EAC647E5455F), Lane(0xDC4ED6C9966F2478),
      Lane(0x204B9710B4C31DF9))
  }

  function Heavy13(): Flat {
    Flat(
      Lane(0xE61D767EE8360A8E), Lane(0xFD4D1392C5BD26CA), Lane(0x139E3FCADA294847), Lane(0xD10E9E2765C7158A),
      Lane(0x4244A4D910C81769), Lane(0x5622DF15B5DE45B0), Lane(0xBB12D7FA509AA897), Lane(0xAF9E1C16D1EF9BFD),
      Lane(0x86400B551E8F7A86), Lane(0x02F28D5365C6BD5F), Lane(0x401DFB1E4627F47B), Lane(0xC79D44201B6D8E94),
      Lane(0xDA016392FBF2BC34), Lane(0xB84F03DCFF964125), Lane(0xEE8361471A5342D2), Lane(0xF52F41092589BA39),
      Lane(0x92865B583EE08880), Lane(0x4BC80FB73781F52C), Lane(0xF504386C22E57A18), Lane(0xA414A6368A7B78BD),
      Lane(0x8D691D7D594C4234), Lane(0x3C99C3011CE59565), Lane(0xA09823CAE66B6871), Lane(0x620497D570611604),
      Lane(0x3484D288FBE7D3CB))
  }

  function Heavy14(): Flat {
    Flat(
      Lane(0x0E0A6A0C1E2D5357), Lane(0x46E3C59C4DB95767), Lane(0x21EBB8E4F05633CA), Lane(0x1527D52557C083A1),
      Lane(0x2D02F87B05CB5311), Lane(0x2F899477D25114AE), Lane(0x61AF988F8F9521F8), Lane(0x0237B3468F9471AD),
      Lane(0xE5DCF60953A6A3C3), Lane(0x6F8EA1BE9174BD36), Lane(0xDC959FA262850068), Lane(0xDC5DA9A6542CBF1C),
      Lane(0x13F3C8256ED3083E), Lane(0x4680A03135B819CE), Lane(0x44FC7C58EAFB1F4C), Lane(0x260C2EC26174A50E),
      Lane(0xA89744A365C93655), Lane(0x2F5B18FD68E9D835), Lane(0xB280BBA15F250A07), Lane(0xEB81DEA212E52D32),
      Lane(0x7550473D1396B440), Lane(0x19BFE9A78099FB41), Lane(0x1EBB2BD3A4626529), Lane(0xEF87E74D762E8287),
      Lane(0x31D77D1A214987AD))
  }

  function Heavy15(): Flat {
    Flat(
      Lane(0x843B5F73AD059064), Lane(0x119AF547E31FEE83), Lane(0x47DF047B3BFD30E6), Lane(0xEA1572E844416048),
      Lane(0x552920EEA4D50F8D), Lane(0x6714EA349EE8430C), Lane(0xB1E319FA0BCDC62E), Lane(0xA6022E3E462BB5B4),
      Lane(0xF0D084A897B292DC), Lane(0x706C68FA1CC6A41E), Lane(0xD64EF952D115DA7D), Lane(0xF4C55F7359C479A3),
      Lane(0x240D05FB5DB650B8), Lane(0x7F1506324336AB38), Lane(0xE07BE75A90A8F493), Lane(0x1D2A4AF414D2757E),
      Lane(0x4FC076472ABACB0E), Lane(0x21034CDEA81D01C4), Lane(0xEB7E576D4FBAC8F1), Lane(0xABC22019C73866C3),
      Lane(0x274B175566FA5545), Lane(0xC6402F01452CFFE1), Lane(0x8C01ECFA8491F667), Lane(0x57AD7C78D0155A95),
      Lane(0x410C2B4B8FDDAE62))
  }

  function Heavy16(): Flat {
    Flat(
      Lane(0x94B46E77E2D308C6), Lane(0x5A591BD46C65A93C), Lane(0xF917425CF269CCEE), Lane(0x18D27B428F59C5B6),
      Lane(0xBED868C5CCD981AB), Lane(0xB8BD44EC1F866B56), Lane(0x4F8130C755ABB2FD), Lane(0xB61D46EB62DC307A),
      Lane(0x545652EC9A5A9F22), Lane(0xFB25761448B1942B), Lane(0xBF7DB6C2B42F0AFE), Lane(0x8E9C8E800FFEE35E),
      Lane(0x393C275C6290C582), Lane(0xC7C506E722DE531A), Lane(0xD962E6B12F0E3A09), Lane(0x8456F5B0DC911AEE),
      Lane(0x3369C6CB6053B080), Lane(0x176745D8B2543CEA), Lane(0x085C54247D5B359C), Lane(0xA5419CF4FB54E547),
      Lane(0x9A2D141D46E83AB5), Lane(0xE3A3C9A1C75DA04F), Lane(0x52B205958C8FA23B), Lane(0x907B2919081FC312),
      Lane(0x025667A7B197883E))
  }

  function Heavy17(): Flat {
    Flat(
      Lane(0x1CBBA81450431094), Lane(0x4B6427148E8675B7), Lane(0x6D9E12A3F95E29BD), Lane(0x348F7557F7630DF2),
      Lane(0xF0CAD702B1F123AA), Lane(0x3F4BDE693E72D1C8), Lane(0xD81AB9CB940D25D8), Lane(0xDE7F00532FACD7F8),
      Lane(0xAEC7A53D0B4C4435), Lane(0xA76E01F6131D7298), Lane(0x692982B806313B4F), Lane(0xE6F7178034C18A9E),
      Lane(0x4E18C0225B12BE87), Lane(0x59342B0787AB29A2), Lane(0x9DA428C713DC5A51), Lane(0xD152527204AB931A),
      Lane(0x64CB8249D6C90ACF), Lane(0x44C0ED544B951770), Lane(0x65E6E40E90E53918), Lane(0x3179084D9A078B24),
      Lane(0xED36F27370BC368E), Lane(0x91981E8A148A9744), Lane(0xEC03314A3DAF8DA5), Lane(0x13056F40CE57C411),
      Lane(0x2721CCEAB0CC5A80))
  }

  function Heavy18(): Flat {
    Flat(
      Lane(0x434F9C9BD30CC427), Lane(0xB585884D2F196FEA), Lane(0xB609475AEF87558B), Lane(0x3D6C0982D1934D95),
      Lane(0x39F06B313239BCA9), Lane(0x0198FE8C8DD053AB), Lane(0xDDD0A7555E8F7CBD), Lane(0x26FCB0382CDA03ED),
      Lane(0x5F2CD124F5E28746), Lane(0x44BCF8C31156D614), Lane(0xAF58D01ECF08541D), Lane(0x7EBD806178AA9485),
      Lane(0xC7BF05DCF539FDA3), Lane(0xBCD3F6055FA07A7D), Lane(0xCFDDEF35BAD241AB), Lane(0x6D24685FC0C178DD),
      Lane(0xDDBC5F2E1A15FF55), Lane(0x78C3FE798D86F4C1), Lane(0x484636F2F528D7C6), Lane(0x196698B48F3EFEA9),
      Lane(0x8182A0DED7569305), Lane(0x5323E6F63064B81D), Lane(0x527D16A420D8F736), Lane(0x0514F0997FC9BA8C),
      Lane(0x6364597ED480D325))
  }

  function Heavy19(): Flat {
    Flat(
      Lane(0x97048D5617928282), Lane(0xC101427D1EB13CE1), Lane(0xAC170B83D9970DB5), Lane(0xFB4F461E183491AA),
      Lane(0xD160C86C9F9550DE), Lane(0x04EAFE0365997B9F), Lane(0x116BCA60140572BA), Lane(0x343A389A40941D1A),
      Lane(0x70A5C066832D5357), Lane(0xECB53A360E1A91EC), Lane(0x2609B581BE7E2F86), Lane(0x4719867B75CDF126),
      Lane(0xF8C13BB6A6282158), Lane(0xE90DED77A425D78A), Lane(0x82510D021329E7DC), Lane(0x254CC2AE9CE319B6),
      Lane(0x9809441A9A1FADBA), Lane(0xF071FAA2D3923615), Lane(0xD8B09E5B5BCA693B), Lane(0x1B68C7D1E374111F),
      Lane(0x9059603D8AA2DB94), Lane(0x21417ED83EF56F99), Lane(0xB6666C6B27727661), Lane(0xB38BA5323950EBBC),
      Lane(0x870A3D26251E24C3))
  }

  function Heavy20(): Flat {
    Flat(
      Lane(0xEB1BC39870283923), Lane(0x343054C323AFA55A), Lane(0x328FF63A317EB53B), Lane(0x2CE733A71BFF38E1),
      Lane(0xB933E7722F96E75E), Lane(0xA5A6FE5CD1A7BD32), Lane(0x0EFE4DC375FE426F), Lane(0x9CF2CE3A04C3B44A),
      Lane(0xAFC2FAC5129013D7), Lane(0xF924BE024EBDC453), Lane(0x898CF4EE6F27824D), Lane(0x2E782C82323C6001),
      Lane(0xBCEC28209B5056D4), Lane(0x585F28C49CAB9D8A), Lane(0x550EED20D8FBD626), Lane(0x3BF01B92EED882A4),
      Lane(0x633D3811B5ECAC88), Lane(0x3BE960F1B430652C), Lane(0x17451AE4D6D526F9), Lane(0x1FDB9C351B5A2FE5),
      Lane(0xC7C101BFFED8173F), Lane(0x5848999A2674BF00), Lane(0xD3BC260D70C895FC), Lane(0x578556079B5C879C),
      Lane(0xA9185149CC7EC899))
  }

  function Heavy21(): Flat {
    Flat(
      Lane(0xB14C5387E537928D), Lane(0xD9F41C13437787E1), Lane(0xEDEE176ACD3787E9), Lane(0xCD4A35B3E57144B3),
      Lane(0x1E30C658BC3354DB), Lane(0x90CD2F33889DFB72), Lane(0x14B22B2FC8515D17), Lane(0xBFCC668E37E5EB01),
      Lane(0xECB4B714B1DCCFCD), Lane(0x3D63CD1DA6B4E557), Lane(0x7526D4D45290FEF5), Lane(0x71817D52AD167183),
      Lane(0x82562C3C118A1319), Lane(0xD5E77F9E0407A27E), Lane(0x4201D51C1943EF71), Lane(0x0214C29A2AE046E3),
      Lane(0x1DB968D89EBBF619), Lane(0xC18AF0B2FED89783), Lane(0x572DFBA7A791D7CE), Lane(0x4F62D4B716361110),
      Lane(0xFBFC6EFE47A5429B), Lane(0x0A895E2C20D6FC49), Lane(0xA3F3B0CCFBBBB57E), Lane(0x8FFF55A5569519D2),
      Lane(0x5F028D95938F3CF2))
  }

  function Heavy22(): Flat {
    Flat(
      Lane(0x47300FC8DD41A949), Lane(0x8B4F45D2714604CC), Lane(0xB2C126339FF48C14), Lane(0x1CD8A245DF31C935),
      Lane(0xF5EE65A19F448E71), Lane(0xBD6E4F7D39C06E6C), Lane(0x22C0345AC2A4B17D), Lane(0xBFC5519706B32442),
      Lane(0x5BA7582593322234), Lane(0x28B27D466633EA4D), Lane(0xB5C2C2B51AF745DC), Lane(0x4B6D18FA5FB1E633),
      Lane(0xDF8DCDBE11240A59), Lane(0x168F86237710E02D), Lane(0x08EEDDC7EE3F7683), Lane(0x4DCB582D0F218CCB),
      Lane(0x619B300B61190EC7), Lane(0x31D8698EFDD3E6E1), Lane(0x882F92457F0C31BC), Lane(0x40EB350494A047B2),
      Lane(0x07E2F369CDCBEB39), Lane(0x3B364413B391268A), Lane(0x0A07C58C0041430D), Lane(0x4C6D1C28D5F9030C),
      Lane(0x776D8984995F5009))
  }

  function Heavy23(): Flat {
    Flat(
      Lane(0xCD9E2C9C12E453F3), Lane(0xC6199F5F11424353), Lane(0x905D766519841020), Lane(0x7635B2FB18D4A3BC),
      Lane(0x6A698F2129F25A60), Lane(0xF8BEEC47909AFC61), Lane(0x1A899E119C712269), Lane(0x38608F0CCEB5B30A),
      Lane(0x745B3E98D6BBD2CC), Lane(0x7525A5176FCBCBF3), Lane(0x7CA996944A059EC4), Lane(0x3A7A8822988B3513),
      Lane(0x360D16DB8E7D27E6), Lane(0x0B1DA23977C5B0DE), Lane(0xC334832AC7807429), Lane(0x2BDAEBEEDB6A8848),
      Lane(0xE4110F32BF48C19D), Lane(0x765739BA3CA7D877), Lane(0x51C07864FC434159), Lane(0x226057E95495269B),
      Lane(0x983A77C021AEC138), Lane(0xEF876DEA7EE9D4C7), Lane(0xC04380CA0AB7B188), Lane(0x48BE53FEE23672F0),
      Lane(0xD7BC0D830DFE279C))
  }

  function Heavy24(): Flat {
    HeavyTable().(a4 := Lane(0xE720E0DF44EECEDE), a16 := Lane(0x87E961B036BC9416))
  }

  lemma HeavyFirst()
    ensures Encodable(HEAVY_NAME) && |Prefix(HEAVY_NAME)| == RATE
    ensures XorBytes(EmptyState(), Prefix(HEAVY_NAME), RATE) == StateOf(Heavy0())
  {
    hide XorBytes, Prefix, LaneAt, ByteCount;
    HeavyLanes();
    forall l | 0 <= l < 25
      ensures XorBytes(EmptyState(), Prefix(HEAVY_NAME), RATE)[l] == StateOf(Heavy0())[l]
    {
      FirstBlockLane(Prefix(HEAVY_NAME), l);
    }
  }

  lemma HeavyRound0()
    ensures Follows(Heavy0(), Lane(0x0000000000000001), Heavy1())
  {
    var round := RoundIs(Heavy0(), TraceOf(Heavy0()), Lane(0x0000000000000001), Heavy1());
  }

  lemma HeavyRound1()
    ensures Follows(Heavy1(), Lane(0x0000000000008082), Heavy2())
  {
    var round := RoundIs(Heavy1(), TraceOf(Heavy1()), Lane(0x0000000000008082), Heavy2());
  }

  lemma HeavyRound2()
    ensures Follows(Heavy2(), Lane(0x800000000000808A), Heavy3())
  {
    var round := RoundIs(Heavy2(), TraceOf(Heavy2()), Lane(0x800000000000808A), Heavy3());
  }

  lemma HeavyRound3()
    ensures Follows(Heavy3(), Lane(0x8000000080008000), Heavy4())
  {
    var round := RoundIs(Heavy3(), TraceOf(Heavy3()), Lane(0x8000000080008000), Heavy4());
  }

  lemma HeavyRound4()
    ensures Follows(Heavy4(), Lane(0x000000000000808B), Heavy5())
  {
    var round := RoundIs(Heavy4(), TraceOf(Heavy4()), Lane(0x000000000000808B), Heavy5());
  }

  lemma HeavyRound5()
    ensures Follows(Heavy5(), Lane(0x0000000080000001), Heavy6())
  {
    var round := RoundIs(Heavy5(), TraceOf(Heavy5()), Lane(0x0000000080000001), Heavy6());
  }

  lemma HeavyRound6()
    ensures Follows(Heavy6(), Lane(0x8000000080008081), Heavy7())
  {
    var round := RoundIs(Heavy6(), TraceOf(Heavy6()), Lane(0x8000000080008081), Heavy7());
  }

  lemma HeavyRound7()
    ensures Follows(Heavy7(), Lane(0x8000000000008009), Heavy8())
  {
    var round := RoundIs(Heavy7(), TraceOf(Heavy7()), Lane(0x8000000000008009), Heavy8());
  }

  lemma HeavyRound8()
    ensures Follows(Heavy8(), Lane(0x000000000000008A), Heavy9())
  {
    var round := RoundIs(Heavy8(), TraceOf(Heavy8()), Lane(0x000000000000008A), Heavy9());
  }

  lemma HeavyRound9()
    ensures Follows(Heavy9(), Lane(0x0000000000000088), Heavy10())
  {
    var round := RoundIs(Heavy9(), TraceOf(Heavy9()), Lane(0x0000000000000088), Heavy10());
  }

  lemma HeavyRound10()
    ensures Follows(Heavy10(), Lane(0x0000000080008009), Heavy11())
  {
    var round := RoundIs(Heavy10(), TraceOf(Heavy10()), Lane(0x0000000080008009), Heavy11());
  }

  lemma HeavyRound11()
    ensures Follows(Heavy11(), Lane(0x000000008000000A), Heavy12())
  {
    var round := RoundIs(Heavy11(), TraceOf(Heavy11()), Lane(0x000000008000000A), Heavy12());
  }

  lemma HeavyRound12()
    ensures Follows(Heavy12(), Lane(0x000000008000808B), Heavy13())
  {
    var round := RoundIs(Heavy12(), TraceOf(Heavy12()), Lane(0x000000008000808B), Heavy13());
  }

  lemma HeavyRound13()
    ensures Follows(Heavy13(), Lane(0x800000000000008B), Heavy14())
  {
    var round := RoundIs(Heavy13(), TraceOf(Heavy13()), Lane(0x800000000000008B), Heavy14());
  }

  lemma HeavyRound14()
    ensures Follows(Heavy14(), Lane(0x8000000000008089), Heavy15())
  {
    var round := RoundIs(Heavy14(), TraceOf(Heavy14()), Lane(0x8000000000008089), Heavy15());
  }

  lemma HeavyRound15()
    ensures Follows(Heavy15(), Lane(0x8000000000008003), Heavy16())
  {
    var round := RoundIs(Heavy15(), TraceOf(Heavy15()), Lane(0x8000000000008003), Heavy16());
  }

  lemma HeavyRound16()
    ensures Follows(Heavy16(), Lane(0x8000000000008002), Heavy17())
  {
    var round := RoundIs(Heavy16(), TraceOf(Heavy16()), Lane(0x8000000000008002), Heavy17());
  }

  lemma HeavyRound17()
    ensures Follows(Heavy17(), Lane(0x8000000000000080), Heavy18())
  {
    var round := RoundIs(Heavy17(), TraceOf(Heavy17()), Lane(0x8000000000000080), Heavy18());
  }

  lemma HeavyRound18()
    ensures Follows(Heavy18(), Lane(0x000000000000800A), Heavy19())
  {
    var round := RoundIs(Heavy18(), TraceOf(Heavy18()), Lane(0x000000000000800A), Heavy19());
  }

  lemma HeavyRound19()
    ensures Follows(Heavy19(), Lane(0x800000008000000A), Heavy20())
  {
    var round := RoundIs(Heavy19(), TraceOf(Heavy19()), Lane(0x800000008000000A), Heavy20());
  }

  lemma HeavyRound20()
    ensures Follows(Heavy20(), Lane(0x8000000080008081), Heavy21())
  {
    var round := RoundIs(Heavy20(), TraceOf(Heavy20()), Lane(0x8000000080008081), Heavy21());
  }

  lemma HeavyRound21()
    ensures Follows(Heavy21(), Lane(0x8000000000008080), Heavy22())
  {
    var round := RoundIs(Heavy21(), TraceOf(Heavy21()), Lane(0x8000000000008080), Heavy22());
  }

  lemma HeavyRound22()
    ensures Follows(Heavy22(), Lane(0x0000000080000001), Heavy23())
  {
    var round := RoundIs(Heavy22(), TraceOf(Heavy22()), Lane(0x0000000080000001), Heavy23());
  }

  lemma HeavyRound23()
    ensures Follows(Heavy23(), Lane(0x8000000080008008), Heavy24())
  {
    var round := RoundIs(Heavy23(), TraceOf(Heavy23()), Lane(0x8000000080008008), Heavy24());
  }

  lemma HeavyRounds4()
    ensures Rounds(StateOf(Heavy0()), 4) == StateOf(Heavy4())
  {
    hide Round, Rounds, StateOf, Follows, Heavy0, Heavy1, Heavy2, Heavy3, Heavy4;
    NoRounds(StateOf(Heavy0()));
    HeavyRound0();
    NextRound(StateOf(Heavy0()), 0, Heavy0(), Lane(0x0000000000000001), Heavy1());
    HeavyRound1();
    NextRound(StateOf(Heavy0()), 1, Heavy1(), Lane(0x0000000000008082), Heavy2());
    HeavyRound2();
    NextRound(StateOf(Heavy0()), 2, Heavy2(), Lane(0x800000000000808A), Heavy3());
    HeavyRound3();
    NextRound(StateOf(Heavy0()), 3, Heavy3(), Lane(0x8000000080008000), Heavy4());
  }

  lemma HeavyRounds8()
    ensures Rounds(StateOf(Heavy0()), 8) == StateOf(Heavy8())
  {
    hide Round, Rounds, StateOf, Follows, Heavy0, Heavy4, Heavy5, Heavy6, Heavy7, Heavy8;
    HeavyRounds4();
    HeavyRound4();
    NextRound(StateOf(Heavy0()), 4, Heavy4(), Lane(0x000000000000808B), Heavy5());
    HeavyRound5();
    NextRound(StateOf(Heavy0()), 5, Heavy5(), Lane(0x0000000080000001), Heavy6());
    HeavyRound6();
    NextRound(StateOf(Heavy0()), 6, Heavy6(), Lane(0x8000000080008081), Heavy7());
    HeavyRound7();
    NextRound(StateOf(Heavy0()), 7, Heavy7(), Lane(0x8000000000008009), Heavy8());
  }

  lemma HeavyRounds12()
    ensures Rounds(StateOf(Heavy0()), 12) == StateOf(Heavy12())
  {
    hide Round, Rounds, StateOf, Follows, Heavy0, Heavy8, Heavy9, Heavy10, Heavy11, Heavy12;
    HeavyRounds8();
    HeavyRound8();
    NextRound(StateOf(Heavy0()), 8, Heavy8(), Lane(0x000000000000008A), Heavy9());
    HeavyRound9();
    NextRound(StateOf(Heavy0()), 9, Heavy9(), Lane(0x0000000000000088), Heavy10());
    HeavyRound10();
    NextRound(StateOf(Heavy0()), 10, Heavy10(), Lane(0x0000000080008009), Heavy11());
    HeavyRound11();
    NextRound(StateOf(Heavy0()), 11, Heavy11(), Lane(0x000000008000000A), Heavy12());
  }

  lemma HeavyRounds16()
    ensures Rounds(StateOf(Heavy0()), 16) == StateOf(Heavy16())
  {
    hide Round, Rounds, StateOf, Follows, Heavy0, Heavy12, Heavy13, Heavy14, Heavy15, Heavy16;
    HeavyRounds12();
    HeavyRound12();
    NextRound(StateOf(Heavy0()), 12, Heavy12(), Lane(0x000000008000808B), Heavy13());
    HeavyRound13();
    NextRound(StateOf(Heavy0()), 13, Heavy13(), Lane(0x800000000000008B), Heavy14());
    HeavyRound14();
    NextRound(StateOf(Heavy0()), 14, Heavy14(), Lane(0x8000000000008089), Heavy15());
    HeavyRound15();
    NextRound(StateOf(Heavy0()), 15, Heavy15(), Lane(0x8000000000008003), Heavy16());
  }

  lemma HeavyRounds20()
    ensures Rounds(StateOf(Heavy0()), 20) == StateOf(Heavy20())
  {
    hide Round, Rounds, StateOf, Follows, Heavy0, Heavy16, Heavy17, Heavy18, Heavy19, Heavy20;
    HeavyRounds16();
    HeavyRound16();
    NextRound(StateOf(Heavy0()), 16, Heavy16(), Lane(0x8000000000008002), Heavy17());
    HeavyRound17();
    NextRound(StateOf(Heavy0()), 17, Heavy17(), Lane(0x8000000000000080), Heavy18());
    HeavyRound18();
    NextRound(StateOf(Heavy0()), 18, Heavy18(), Lane(0x000000000000800A), Heavy19());
    HeavyRound19();
    NextRound(StateOf(Heavy0()), 19, Heavy19(), Lane(0x800000008000000A), Heavy20());
  }

  lemma HeavyRounds24()
    ensures Rounds(StateOf(Heavy0()), 24) == StateOf(Heavy24())
  {
    hide Round, Rounds, StateOf, Follows, Heavy0, Heavy20, Heavy21, Heavy22, Heavy23, Heavy24;
    HeavyRounds20();
    HeavyRound20();
    NextRound(StateOf(Heavy0()), 20, Heavy20(), Lane(0x8000000080008081), Heavy21());
    HeavyRound21();
    NextRound(StateOf(Heavy0()), 21, Heavy21(), Lane(0x8000000000008080), Heavy22());
    HeavyRound22();
    NextRound(StateOf(Heavy0()), 22, Heavy22(), Lane(0x0000000080000001), Heavy23());
    HeavyRound23();
    NextRound(StateOf(Heavy0()), 23, Heavy23(), Lane(0x8000000080008008), Heavy24());
  }

  lemma HeavyLast()
    ensures |Pad(Zeros(32), 0x04)| == RATE
    ensures XorBytes(StateOf(Heavy24()), Pad(Zeros(32), 0x04), RATE) == StateOf(HeavyTable())
  {
    hide XorBytes, Pad, Xor, HeavyTable;
    PaddedLane(StateOf(Heavy24()), 32, 0);
    HeavyWords();
    forall l | 0 <= l < 25
      ensures XorBytes(StateOf(Heavy24()), Pad(Zeros(32), 0x04), RATE)[l] == StateOf(HeavyTable())[l]
    {
      PaddedLane(StateOf(Heavy24()), 32, l);
    }
  }

  lemma HeavyWords()
    ensures Xor(Lane(0xE720E0DF44EECEDE), Lane(4)) == HeavyTable().a4
    ensures Xor(Lane(0x87E961B036BC9416), Lane(0x8000_0000_0000_0000)) == HeavyTable().a16
  {
  }

  /** The kernel's literal table is the state prepared by the name and 32 bytes of message. */
  lemma HeavyTableIs()
    ensures Encodable(HEAVY_NAME)
    ensures StateOf(HeavyTable()) == StartState(HEAVY_NAME, 32)
  {
    hide XorBytes, Pad, Prefix, StateOf, Rounds, ByteCount, Heavy0, Heavy24, HeavyTable;
    HeavyFirst();
    HeavyRounds24();
    HeavyLast();
    var block := Prefix(HEAVY_NAME);
    assert block[..RATE] == block && block[RATE..] == [];
    assert PrefixState(HEAVY_NAME) == StateOf(Heavy24());
  }
}

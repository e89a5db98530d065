/** The checksum table of utils/crc64.go, sixteen entries a row. */
module Crc64Table {

  function Row0(k: bv8): bv64 {
    match k
    case 0 => 0x0000000000000000
    case 1 => 0x7ad870c830358979
    case 2 => 0xf5b0e190606b12f2
    case 3 => 0x8f689158505e9b8b
    case 4 => 0xc038e5739841b68f
    case 5 => 0xbae095bba8743ff6
    case 6 => 0x358804e3f82aa47d
    case 7 => 0x4f50742bc81f2d04
    case 8 => 0xab28ecb46814fe75
    case 9 => 0xd1f09c7c5821770c
    case 10 => 0x5e980d24087fec87
    case 11 => 0x24407dec384a65fe
    case 12 => 0x6b1009c7f05548fa
    case 13 => 0x11c8790fc060c183
    case 14 => 0x9ea0e857903e5a08
    case _ => 0xe478989fa00bd371
  }

  function Row1(k: bv8): bv64 {
    match k
    case 0 => 0x7d08ff3b88be6f81
    case 1 => 0x07d08ff3b88be6f8
    case 2 => 0x88b81eabe8d57d73
    case 3 => 0xf2606e63d8e0f40a
    case 4 => 0xbd301a4810ffd90e
    case 5 => 0xc7e86a8020ca5077
    case 6 => 0x4880fbd87094cbfc
    case 7 => 0x32588b1040a14285
    case 8 => 0xd620138fe0aa91f4
    case 9 => 0xacf86347d09f188d
    case 10 => 0x2390f21f80c18306
    case 11 => 0x594882d7b0f40a7f
    case 12 => 0x1618f6fc78eb277b
    case 13 => 0x6cc0863448deae02
    case 14 => 0xe3a8176c18803589
    case _ => 0x997067a428b5bcf0
  }

  function Row2(k: bv8): bv64 {
    match k
    case 0 => 0xfa11fe77117cdf02
    case 1 => 0x80c98ebf2149567b
    case 2 => 0x0fa11fe77117cdf0
    case 3 => 0x75796f2f41224489
    case 4 => 0x3a291b04893d698d
    case 5 => 0x40f16bccb908e0f4
    case 6 => 0xcf99fa94e9567b7f
    case 7 => 0xb5418a5cd963f206
    case 8 => 0x513912c379682177
    case 9 => 0x2be1620b495da80e
    case 10 => 0xa489f35319033385
    case 11 => 0xde51839b2936bafc
    case 12 => 0x9101f7b0e12997f8
    case 13 => 0xebd98778d11c1e81
    case 14 => 0x64b116208142850a
    case _ => 0x1e6966e8b1770c73
  }

  function Row3(k: bv8): bv64 {
    match k
    case 0 => 0x8719014c99c2b083
    case 1 => 0xfdc17184a9f739fa
    case 2 => 0x72a9e0dcf9a9a271
    case 3 => 0x08719014c99c2b08
    case 4 => 0x4721e43f0183060c
    case 5 => 0x3df994f731b68f75
    case 6 => 0xb29105af61e814fe
    case 7 => 0xc849756751dd9d87
    case 8 => 0x2c31edf8f1d64ef6
    case 9 => 0x56e99d30c1e3c78f
    case 10 => 0xd9810c6891bd5c04
    case 11 => 0xa3597ca0a188d57d
    case 12 => 0xec09088b6997f879
    case 13 => 0x96d1784359a27100
    case 14 => 0x19b9e91b09fcea8b
    case _ => 0x636199d339c963f2
  }

  function Row4(k: bv8): bv64 {
    match k
    case 0 => 0xdf7adabd7a6e2d6f
    case 1 => 0xa5a2aa754a5ba416
    case 2 => 0x2aca3b2d1a053f9d
    case 3 => 0x50124be52a30b6e4
    case 4 => 0x1f423fcee22f9be0
    case 5 => 0x659a4f06d21a1299
    case 6 => 0xeaf2de5e82448912
    case 7 => 0x902aae96b271006b
    case 8 => 0x74523609127ad31a
    case 9 => 0x0e8a46c1224f5a63
    case 10 => 0x81e2d7997211c1e8
    case 11 => 0xfb3aa75142244891
    case 12 => 0xb46ad37a8a3b6595
    case 13 => 0xceb2a3b2ba0eecec
    case 14 => 0x41da32eaea507767
    case _ => 0x3b024222da65fe1e
  }

  function Row5(k: bv8): bv64 {
    match k
    case 0 => 0xa2722586f2d042ee
    case 1 => 0xd8aa554ec2e5cb97
    case 2 => 0x57c2c41692bb501c
    case 3 => 0x2d1ab4dea28ed965
    case 4 => 0x624ac0f56a91f461
    case 5 => 0x1892b03d5aa47d18
    case 6 => 0x97fa21650afae693
    case 7 => 0xed2251ad3acf6fea
    case 8 => 0x095ac9329ac4bc9b
    case 9 => 0x7382b9faaaf135e2
    case 10 => 0xfcea28a2faafae69
    case 11 => 0x8632586aca9a2710
    case 12 => 0xc9622c4102850a14
    case 13 => 0xb3ba5c8932b0836d
    case 14 => 0x3cd2cdd162ee18e6
    case _ => 0x460abd1952db919f
  }

  function Row6(k: bv8): bv64 {
    match k
    case 0 => 0x256b24ca6b12f26d
    case 1 => 0x5fb354025b277b14
    case 2 => 0xd0dbc55a0b79e09f
    case 3 => 0xaa03b5923b4c69e6
    case 4 => 0xe553c1b9f35344e2
    case 5 => 0x9f8bb171c366cd9b
    case 6 => 0x10e3202993385610
    case 7 => 0x6a3b50e1a30ddf69
    case 8 => 0x8e43c87e03060c18
    case 9 => 0xf49bb8b633338561
    case 10 => 0x7bf329ee636d1eea
    case 11 => 0x012b592653589793
    case 12 => 0x4e7b2d0d9b47ba97
    case 13 => 0x34a35dc5ab7233ee
    case 14 => 0xbbcbcc9dfb2ca865
    case _ => 0xc113bc55cb19211c
  }

  function Row7(k: bv8): bv64 {
    match k
    case 0 => 0x5863dbf1e3ac9dec
    case 1 => 0x22bbab39d3991495
    case 2 => 0xadd33a6183c78f1e
    case 3 => 0xd70b4aa9b3f20667
    case 4 => 0x985b3e827bed2b63
    case 5 => 0xe2834e4a4bd8a21a
    case 6 => 0x6debdf121b863991
    case 7 => 0x1733afda2bb3b0e8
    case 8 => 0xf34b37458bb86399
    case 9 => 0x8993478dbb8deae0
    case 10 => 0x06fbd6d5ebd3716b
    case 11 => 0x7c23a61ddbe6f812
    case 12 => 0x3373d23613f9d516
    case 13 => 0x49aba2fe23cc5c6f
    case 14 => 0xc6c333a67392c7e4
    case _ => 0xbc1b436e43a74e9d
  }

  function Row8(k: bv8): bv64 {
    match k
    case 0 => 0x95ac9329ac4bc9b5
    case 1 => 0xef74e3e19c7e40cc
    case 2 => 0x601c72b9cc20db47
    case 3 => 0x1ac40271fc15523e
    case 4 => 0x5594765a340a7f3a
    case 5 => 0x2f4c0692043ff643
    case 6 => 0xa02497ca54616dc8
    case 7 => 0xdafce7026454e4b1
    case 8 => 0x3e847f9dc45f37c0
    case 9 => 0x445c0f55f46abeb9
    case 10 => 0xcb349e0da4342532
    case 11 => 0xb1eceec59401ac4b
    case 12 => 0xfebc9aee5c1e814f
    case 13 => 0x8464ea266c2b0836
    case 14 => 0x0b0c7b7e3c7593bd
    case _ => 0x71d40bb60c401ac4
  }

  function Row9(k: bv8): bv64 {
    match k
    case 0 => 0xe8a46c1224f5a634
    case 1 => 0x927c1cda14c02f4d
    case 2 => 0x1d148d82449eb4c6
    case 3 => 0x67ccfd4a74ab3dbf
    case 4 => 0x289c8961bcb410bb
    case 5 => 0x5244f9a98c8199c2
    case 6 => 0xdd2c68f1dcdf0249
    case 7 => 0xa7f41839ecea8b30
    case 8 => 0x438c80a64ce15841
    case 9 => 0x3954f06e7cd4d138
    case 10 => 0xb63c61362c8a4ab3
    case 11 => 0xcce411fe1cbfc3ca
    case 12 => 0x83b465d5d4a0eece
    case 13 => 0xf96c151de49567b7
    case 14 => 0x76048445b4cbfc3c
    case _ => 0x0cdcf48d84fe7545
  }

  function RowA(k: bv8): bv64 {
    match k
    case 0 => 0x6fbd6d5ebd3716b7
    case 1 => 0x15651d968d029fce
    case 2 => 0x9a0d8ccedd5c0445
    case 3 => 0xe0d5fc06ed698d3c
    case 4 => 0xaf85882d2576a038
    case 5 => 0xd55df8e515432941
    case 6 => 0x5a3569bd451db2ca
    case 7 => 0x20ed197575283bb3
    case 8 => 0xc49581ead523e8c2
    case 9 => 0xbe4df122e51661bb
    case 10 => 0x3125607ab548fa30
    case 11 => 0x4bfd10b2857d7349
    case 12 => 0x04ad64994d625e4d
    case 13 => 0x7e7514517d57d734
    case 14 => 0xf11d85092d094cbf
    case _ => 0x8bc5f5c11d3cc5c6
  }

  function RowB(k: bv8): bv64 {
    match k
    case 0 => 0x12b5926535897936
    case 1 => 0x686de2ad05bcf04f
    case 2 => 0xe70573f555e26bc4
    case 3 => 0x9ddd033d65d7e2bd
    case 4 => 0xd28d7716adc8cfb9
    case 5 => 0xa85507de9dfd46c0
    case 6 => 0x273d9686cda3dd4b
    case 7 => 0x5de5e64efd965432
    case 8 => 0xb99d7ed15d9d8743
    case 9 => 0xc3450e196da80e3a
    case 10 => 0x4c2d9f413df695b1
    case 11 => 0x36f5ef890dc31cc8
    case 12 => 0x79a59ba2c5dc31cc
    case 13 => 0x037deb6af5e9b8b5
    case 14 => 0x8c157a32a5b7233e
    case _ => 0xf6cd0afa9582aa47
  }

  function RowC(k: bv8): bv64 {
    match k
    case 0 => 0x4ad64994d625e4da
    case 1 => 0x300e395ce6106da3
    case 2 => 0xbf66a804b64ef628
    case 3 => 0xc5bed8cc867b7f51
    case 4 => 0x8aeeace74e645255
    case 5 => 0xf036dc2f7e51db2c
    case 6 => 0x7f5e4d772e0f40a7
    case 7 => 0x05863dbf1e3ac9de
    case 8 => 0xe1fea520be311aaf
    case 9 => 0x9b26d5e88e0493d6
    case 10 => 0x144e44b0de5a085d
    case 11 => 0x6e963478ee6f8124
    case 12 => 0x21c640532670ac20
    case 13 => 0x5b1e309b16452559
    case 14 => 0xd476a1c3461bbed2
    case _ => 0xaeaed10b762e37ab
  }

  function RowD(k: bv8): bv64 {
    match k
    case 0 => 0x37deb6af5e9b8b5b
    case 1 => 0x4d06c6676eae0222
    case 2 => 0xc26e573f3ef099a9
    case 3 => 0xb8b627f70ec510d0
    case 4 => 0xf7e653dcc6da3dd4
    case 5 => 0x8d3e2314f6efb4ad
    case 6 => 0x0256b24ca6b12f26
    case 7 => 0x788ec2849684a65f
    case 8 => 0x9cf65a1b368f752e
    case 9 => 0xe62e2ad306bafc57
    case 10 => 0x6946bb8b56e467dc
    case 11 => 0x139ecb4366d1eea5
    case 12 => 0x5ccebf68aecec3a1
    case 13 => 0x2616cfa09efb4ad8
    case 14 => 0xa97e5ef8cea5d153
    case _ => 0xd3a62e30fe90582a
  }

  function RowE(k: bv8): bv64 {
    match k
    case 0 => 0xb0c7b7e3c7593bd8
    case 1 => 0xca1fc72bf76cb2a1
    case 2 => 0x45775673a732292a
    case 3 => 0x3faf26bb9707a053
    case 4 => 0x70ff52905f188d57
    case 5 => 0x0a2722586f2d042e
    case 6 => 0x854fb3003f739fa5
    case 7 => 0xff97c3c80f4616dc
    case 8 => 0x1bef5b57af4dc5ad
    case 9 => 0x61372b9f9f784cd4
    case 10 => 0xee5fbac7cf26d75f
    case 11 => 0x9487ca0fff135e26
    case 12 => 0xdbd7be24370c7322
    case 13 => 0xa10fceec0739fa5b
    case 14 => 0x2e675fb4576761d0
    case _ => 0x54bf2f7c6752e8a9
  }

  function RowF(k: bv8): bv64 {
    match k
    case 0 => 0xcdcf48d84fe75459
    case 1 => 0xb71738107fd2dd20
    case 2 => 0x387fa9482f8c46ab
    case 3 => 0x42a7d9801fb9cfd2
    case 4 => 0x0df7adabd7a6e2d6
    case 5 => 0x772fdd63e7936baf
    case 6 => 0xf8474c3bb7cdf024
    case 7 => 0x829f3cf387f8795d
    case 8 => 0x66e7a46c27f3aa2c
    case 9 => 0x1c3fd4a417c62355
    case 10 => 0x935745fc4798b8de
    case 11 => 0xe98f353477ad31a7
    case 12 => 0xa6df411fbfb21ca3
    case 13 => 0xdc0731d78f8795da
    case 14 => 0x536fa08fdfd90e51
    case _ => 0x29b7d047efec8728
  }

  /** crc64Table[i]. */
  function Table(i: bv8): bv64 {
    var k := i & 0x0F;
    match i >> 4
    case 0 => Row0(k) case 1 => Row1(k) case 2 => Row2(k) case 3 => Row3(k)
    case 4 => Row4(k) case 5 => Row5(k) case 6 => Row6(k) case 7 => Row7(k)
    case 8 => Row8(k) case 9 => Row9(k) case 10 => RowA(k) case 11 => RowB(k)
    case 12 => RowC(k) case 13 => RowD(k) case 14 => RowE(k) case _ => RowF(k)
  }
}

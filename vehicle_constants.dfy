/** The vehicle model ids with a turret, with adjustable properties, and
    with doors, which decide which parts of a vehicle sync packet are read. */
module VehicleConstants {

  const VehiclesWithTurrets: set<int> := {407, 432, 601}

  const VehiclesWithAdjustableProperties: set<int> := {406, 443, 486, 520, 524, 525, 530, 531, 592}

  /** The models with doors, one constant per line of the source's initializer. */
  const DoorsLine23: set<int> := {400, 401, 402, 403, 404, 405, 406, 407, 408, 409, 410, 411, 412, 413, 414, 415}
  const DoorsLine24: set<int> := {416, 417, 418, 419, 420, 421, 422, 423, 425, 426, 427, 428, 429, 430, 431, 432, 433}
  const DoorsLine25: set<int> := {434, 435, 436, 437, 438, 439, 440, 442, 443, 444, 445, 446, 447, 448, 449, 450, 451}
  const DoorsLine26: set<int> := {452, 453, 454, 455, 456, 458, 459, 460, 461, 462, 463, 464, 466, 467, 468, 469}
  const DoorsLine27: set<int> := {470, 471, 472, 473, 474, 475, 476, 477, 478, 479, 480, 481, 482, 483, 484, 487}
  const DoorsLine28: set<int> := {488, 489, 490, 491, 492, 493, 494, 495, 496, 497, 498, 499, 500, 502, 503, 504, 505}
  const DoorsLine29: set<int> := {506, 507, 508, 509, 510, 511, 512, 513, 514, 515, 516, 517, 518, 519, 520, 521, 522, 523}
  const DoorsLine30: set<int> := {524, 525, 526, 527, 528, 529, 532, 533, 534, 535, 536, 537, 538, 539, 540, 541}
  const DoorsLine31: set<int> := {542, 543, 544, 545, 546, 547, 548, 549, 550, 551, 552, 553, 554, 555, 556, 557, 558, 559}
  const DoorsLine32: set<int> := {560, 561, 562, 563, 565, 566, 567, 569, 570, 573, 574, 575, 576, 577}
  const DoorsLine33: set<int> := {578, 579, 580, 581, 582, 583, 584, 585, 586, 587, 588, 589, 590, 591, 592, 593, 595}
  const DoorsLine34: set<int> := {596, 597, 598, 599, 600, 601, 602, 603, 604, 605, 606, 607, 608, 609, 610, 611}

  const VehiclesWithDoors: set<int> :=
    DoorsLine23 + DoorsLine24 + DoorsLine25 + DoorsLine26 + DoorsLine27 + DoorsLine28
    + DoorsLine29 + DoorsLine30 + DoorsLine31 + DoorsLine32 + DoorsLine33 + DoorsLine34

  /** The models from 400 to 611 that have no doors. */
  const DoorlessModels: set<int> := {424, 441, 457, 465, 485, 486, 501, 530, 531, 564, 568, 571, 572, 594}

  /** Each line of the initializer lists a run of consecutive models, less
      the doorless ones among them. */
  lemma DoorsLineSpan23(m: int)
    ensures m in DoorsLine23 <==> 400 <= m <= 415 && m !in DoorlessModels
  {
  }

  lemma DoorsLineSpan24(m: int)
    ensures m in DoorsLine24 <==> 416 <= m <= 433 && m !in DoorlessModels
  {
  }

  lemma DoorsLineSpan25(m: int)
    ensures m in DoorsLine25 <==> 434 <= m <= 451 && m !in DoorlessModels
  {
  }

  lemma DoorsLineSpan26(m: int)
    ensures m in DoorsLine26 <==> 452 <= m <= 469 && m !in DoorlessModels
  {
  }

  lemma DoorsLineSpan27(m: int)
    ensures m in DoorsLine27 <==> 470 <= m <= 487 && m !in DoorlessModels
  {
  }

  lemma DoorsLineSpan28(m: int)
    ensures m in DoorsLine28 <==> 488 <= m <= 505 && m !in DoorlessModels
  {
  }

  lemma DoorsLineSpan29(m: int)
    ensures m in DoorsLine29 <==> 506 <= m <= 523 && m !in DoorlessModels
  {
  }

  lemma DoorsLineSpan30(m: int)
    ensures m in DoorsLine30 <==> 524 <= m <= 541 && m !in DoorlessModels
  {
  }

  lemma DoorsLineSpan31(m: int)
    ensures m in DoorsLine31 <==> 542 <= m <= 559 && m !in DoorlessModels
  {
  }

  lemma DoorsLineSpan32(m: int)
    ensures m in DoorsLine32 <==> 560 <= m <= 577 && m !in DoorlessModels
  {
  }

  lemma DoorsLineSpan33(m: int)
    ensures m in DoorsLine33 <==> 578 <= m <= 595 && m !in DoorlessModels
  {
  }

  lemma DoorsLineSpan34(m: int)
    ensures m in DoorsLine34 <==> 596 <= m <= 611 && m !in DoorlessModels
  {
  }

  /** Every model with doors lies in 400..611, both ends included, and the
      set is that range without the doorless models. */
  lemma DoorsAreRangeLessDoorless(m: int)
    ensures m in VehiclesWithDoors <==> 400 <= m <= 611 && m !in DoorlessModels
  {
    DoorsLineSpan23(m);
    DoorsLineSpan24(m);
    DoorsLineSpan25(m);
    DoorsLineSpan26(m);
    DoorsLineSpan27(m);
    DoorsLineSpan28(m);
    DoorsLineSpan29(m);
    DoorsLineSpan30(m);
    DoorsLineSpan31(m);
    DoorsLineSpan32(m);
    DoorsLineSpan33(m);
    DoorsLineSpan34(m);
  }

  /** Every turret vehicle has doors. */
  lemma TurretsHaveDoors()
    ensures VehiclesWithTurrets <= VehiclesWithDoors
  {
    forall m | m in VehiclesWithTurrets ensures m in VehiclesWithDoors {
      DoorsAreRangeLessDoorless(m);
    }
  }

  /** 486, 530 and 531 have adjustable properties but no doors; the other six
      adjustable models have doors. */
  lemma AdjustableDoors()
    ensures VehiclesWithAdjustableProperties - VehiclesWithDoors == {486, 530, 531}
  {
    forall m | m in VehiclesWithAdjustableProperties {
      DoorsAreRangeLessDoorless(m);
    }
  }
}

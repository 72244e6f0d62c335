/**
 * The black-carbon biomass-burning script for 1960 to 2020 on the gregorian calendar
 * (emissions/python/timeseries_1960-2020/regrid_BC_biomass_emissions_n96e_greg.py): a
 * monthly time series of 732 months, injected between model levels 1 and 21, whose
 * regridded (time, latitude, longitude) field becomes (time, 1, latitude, longitude).
 */
module RegridBcBiomassGreg {
  import opened Calendars
  import opened Tables
  import opened Arrays
  import opened Coords
  import opened Cubes
  import opened Steps

  /** The time points of 1960 to 1969, one year per row. */
  const Time1960s: seq<seq<real>> := [
    [15.5, 45.5, 75.5, 106.0, 136.5, 167.0, 197.5, 228.5, 259.0, 289.5, 320.0, 350.5],
    [381.5, 411.0, 440.5, 471.0, 501.5, 532.0, 562.5, 593.5, 624.0, 654.5, 685.0, 715.5],
    [746.5, 776.0, 805.5, 836.0, 866.5, 897.0, 927.5, 958.5, 989.0, 1019.5, 1050.0, 1080.5],
    [1111.5, 1141.0, 1170.5, 1201.0, 1231.5, 1262.0, 1292.5, 1323.5, 1354.0, 1384.5, 1415.0, 1445.5],
    [1476.5, 1506.5, 1536.5, 1567.0, 1597.5, 1628.0, 1658.5, 1689.5, 1720.0, 1750.5, 1781.0, 1811.5],
    [1842.5, 1872.0, 1901.5, 1932.0, 1962.5, 1993.0, 2023.5, 2054.5, 2085.0, 2115.5, 2146.0, 2176.5],
    [2207.5, 2237.0, 2266.5, 2297.0, 2327.5, 2358.0, 2388.5, 2419.5, 2450.0, 2480.5, 2511.0, 2541.5],
    [2572.5, 2602.0, 2631.5, 2662.0, 2692.5, 2723.0, 2753.5, 2784.5, 2815.0, 2845.5, 2876.0, 2906.5],
    [2937.5, 2967.5, 2997.5, 3028.0, 3058.5, 3089.0, 3119.5, 3150.5, 3181.0, 3211.5, 3242.0, 3272.5],
    [3303.5, 3333.0, 3362.5, 3393.0, 3423.5, 3454.0, 3484.5, 3515.5, 3546.0, 3576.5, 3607.0, 3637.5]
  ]

  /** The time points of 1970 to 1979, one year per row. */
  const Time1970s: seq<seq<real>> := [
    [3668.5, 3698.0, 3727.5, 3758.0, 3788.5, 3819.0, 3849.5, 3880.5, 3911.0, 3941.5, 3972.0, 4002.5],
    [4033.5, 4063.0, 4092.5, 4123.0, 4153.5, 4184.0, 4214.5, 4245.5, 4276.0, 4306.5, 4337.0, 4367.5],
    [4398.5, 4428.5, 4458.5, 4489.0, 4519.5, 4550.0, 4580.5, 4611.5, 4642.0, 4672.5, 4703.0, 4733.5],
    [4764.5, 4794.0, 4823.5, 4854.0, 4884.5, 4915.0, 4945.5, 4976.5, 5007.0, 5037.5, 5068.0, 5098.5],
    [5129.5, 5159.0, 5188.5, 5219.0, 5249.5, 5280.0, 5310.5, 5341.5, 5372.0, 5402.5, 5433.0, 5463.5],
    [5494.5, 5524.0, 5553.5, 5584.0, 5614.5, 5645.0, 5675.5, 5706.5, 5737.0, 5767.5, 5798.0, 5828.5],
    [5859.5, 5889.5, 5919.5, 5950.0, 5980.5, 6011.0, 6041.5, 6072.5, 6103.0, 6133.5, 6164.0, 6194.5],
    [6225.5, 6255.0, 6284.5, 6315.0, 6345.5, 6376.0, 6406.5, 6437.5, 6468.0, 6498.5, 6529.0, 6559.5],
    [6590.5, 6620.0, 6649.5, 6680.0, 6710.5, 6741.0, 6771.5, 6802.5, 6833.0, 6863.5, 6894.0, 6924.5],
    [6955.5, 6985.0, 7014.5, 7045.0, 7075.5, 7106.0, 7136.5, 7167.5, 7198.0, 7228.5, 7259.0, 7289.5]
  ]

  /** The time points of 1980 to 1989, one year per row. */
  const Time1980s: seq<seq<real>> := [
    [7320.5, 7350.5, 7380.5, 7411.0, 7441.5, 7472.0, 7502.5, 7533.5, 7564.0, 7594.5, 7625.0, 7655.5],
    [7686.5, 7716.0, 7745.5, 7776.0, 7806.5, 7837.0, 7867.5, 7898.5, 7929.0, 7959.5, 7990.0, 8020.5],
    [8051.5, 8081.0, 8110.5, 8141.0, 8171.5, 8202.0, 8232.5, 8263.5, 8294.0, 8324.5, 8355.0, 8385.5],
    [8416.5, 8446.0, 8475.5, 8506.0, 8536.5, 8567.0, 8597.5, 8628.5, 8659.0, 8689.5, 8720.0, 8750.5],
    [8781.5, 8811.5, 8841.5, 8872.0, 8902.5, 8933.0, 8963.5, 8994.5, 9025.0, 9055.5, 9086.0, 9116.5],
    [9147.5, 9177.0, 9206.5, 9237.0, 9267.5, 9298.0, 9328.5, 9359.5, 9390.0, 9420.5, 9451.0, 9481.5],
    [9512.5, 9542.0, 9571.5, 9602.0, 9632.5, 9663.0, 9693.5, 9724.5, 9755.0, 9785.5, 9816.0, 9846.5],
    [9877.5, 9907.0, 9936.5, 9967.0, 9997.5, 10028.0, 10058.5, 10089.5, 10120.0, 10150.5, 10181.0, 10211.5],
    [10242.5, 10272.5, 10302.5, 10333.0, 10363.5, 10394.0, 10424.5, 10455.5, 10486.0, 10516.5, 10547.0, 10577.5],
    [10608.5, 10638.0, 10667.5, 10698.0, 10728.5, 10759.0, 10789.5, 10820.5, 10851.0, 10881.5, 10912.0, 10942.5]
  ]

  /** The time points of 1990 to 1999, one year per row. */
  const Time1990s: seq<seq<real>> := [
    [10973.5, 11003.0, 11032.5, 11063.0, 11093.5, 11124.0, 11154.5, 11185.5, 11216.0, 11246.5, 11277.0, 11307.5],
    [11338.5, 11368.0, 11397.5, 11428.0, 11458.5, 11489.0, 11519.5, 11550.5, 11581.0, 11611.5, 11642.0, 11672.5],
    [11703.5, 11733.5, 11763.5, 11794.0, 11824.5, 11855.0, 11885.5, 11916.5, 11947.0, 11977.5, 12008.0, 12038.5],
    [12069.5, 12099.0, 12128.5, 12159.0, 12189.5, 12220.0, 12250.5, 12281.5, 12312.0, 12342.5, 12373.0, 12403.5],
    [12434.5, 12464.0, 12493.5, 12524.0, 12554.5, 12585.0, 12615.5, 12646.5, 12677.0, 12707.5, 12738.0, 12768.5],
    [12799.5, 12829.0, 12858.5, 12889.0, 12919.5, 12950.0, 12980.5, 13011.5, 13042.0, 13072.5, 13103.0, 13133.5],
    [13164.5, 13194.5, 13224.5, 13255.0, 13285.5, 13316.0, 13346.5, 13377.5, 13408.0, 13438.5, 13469.0, 13499.5],
    [13530.5, 13560.0, 13589.5, 13620.0, 13650.5, 13681.0, 13711.5, 13742.5, 13773.0, 13803.5, 13834.0, 13864.5],
    [13895.5, 13925.0, 13954.5, 13985.0, 14015.5, 14046.0, 14076.5, 14107.5, 14138.0, 14168.5, 14199.0, 14229.5],
    [14260.5, 14290.0, 14319.5, 14350.0, 14380.5, 14411.0, 14441.5, 14472.5, 14503.0, 14533.5, 14564.0, 14594.5]
  ]

  /** The time points of 2000 to 2009, one year per row. */
  const Time2000s: seq<seq<real>> := [
    [14625.5, 14655.5, 14685.5, 14716.0, 14746.5, 14777.0, 14807.5, 14838.5, 14869.0, 14899.5, 14930.0, 14960.5],
    [14991.5, 15021.0, 15050.5, 15081.0, 15111.5, 15142.0, 15172.5, 15203.5, 15234.0, 15264.5, 15295.0, 15325.5],
    [15356.5, 15386.0, 15415.5, 15446.0, 15476.5, 15507.0, 15537.5, 15568.5, 15599.0, 15629.5, 15660.0, 15690.5],
    [15721.5, 15751.0, 15780.5, 15811.0, 15841.5, 15872.0, 15902.5, 15933.5, 15964.0, 15994.5, 16025.0, 16055.5],
    [16086.5, 16116.5, 16146.5, 16177.0, 16207.5, 16238.0, 16268.5, 16299.5, 16330.0, 16360.5, 16391.0, 16421.5],
    [16452.5, 16482.0, 16511.5, 16542.0, 16572.5, 16603.0, 16633.5, 16664.5, 16695.0, 16725.5, 16756.0, 16786.5],
    [16817.5, 16847.0, 16876.5, 16907.0, 16937.5, 16968.0, 16998.5, 17029.5, 17060.0, 17090.5, 17121.0, 17151.5],
    [17182.5, 17212.0, 17241.5, 17272.0, 17302.5, 17333.0, 17363.5, 17394.5, 17425.0, 17455.5, 17486.0, 17516.5],
    [17547.5, 17577.5, 17607.5, 17638.0, 17668.5, 17699.0, 17729.5, 17760.5, 17791.0, 17821.5, 17852.0, 17882.5],
    [17913.5, 17943.0, 17972.5, 18003.0, 18033.5, 18064.0, 18094.5, 18125.5, 18156.0, 18186.5, 18217.0, 18247.5]
  ]

  /** The time points of 2010 to 2019, one year per row. */
  const Time2010s: seq<seq<real>> := [
    [18278.5, 18308.0, 18337.5, 18368.0, 18398.5, 18429.0, 18459.5, 18490.5, 18521.0, 18551.5, 18582.0, 18612.5],
    [18643.5, 18673.0, 18702.5, 18733.0, 18763.5, 18794.0, 18824.5, 18855.5, 18886.0, 18916.5, 18947.0, 18977.5],
    [19008.5, 19038.5, 19068.5, 19099.0, 19129.5, 19160.0, 19190.5, 19221.5, 19252.0, 19282.5, 19313.0, 19343.5],
    [19374.5, 19404.0, 19433.5, 19464.0, 19494.5, 19525.0, 19555.5, 19586.5, 19617.0, 19647.5, 19678.0, 19708.5],
    [19739.5, 19769.0, 19798.5, 19829.0, 19859.5, 19890.0, 19920.5, 19951.5, 19982.0, 20012.5, 20043.0, 20073.5],
    [20104.5, 20134.0, 20163.5, 20194.0, 20224.5, 20255.0, 20285.5, 20316.5, 20347.0, 20377.5, 20408.0, 20438.5],
    [20469.5, 20499.5, 20529.5, 20560.0, 20590.5, 20621.0, 20651.5, 20682.5, 20713.0, 20743.5, 20774.0, 20804.5],
    [20835.5, 20865.0, 20894.5, 20925.0, 20955.5, 20986.0, 21016.5, 21047.5, 21078.0, 21108.5, 21139.0, 21169.5],
    [21200.5, 21230.0, 21259.5, 21290.0, 21320.5, 21351.0, 21381.5, 21412.5, 21443.0, 21473.5, 21504.0, 21534.5],
    [21565.5, 21595.0, 21624.5, 21655.0, 21685.5, 21716.0, 21746.5, 21777.5, 21808.0, 21838.5, 21869.0, 21899.5]
  ]

  /** The time points of 2020. */
  const Time2020: seq<seq<real>> := [
    [21930.5, 21960.5, 21990.5, 22021.0, 22051.5, 22082.0, 22112.5, 22143.5, 22174.0, 22204.5, 22235.0, 22265.5]
  ]

  /** The forecast_reference_time points of 1960 to 1969, one year per row. */
  const Frt1960s: seq<seq<real>> := [
    [15.5, 45.5, 75.5, 106.0, 136.5, 167.0, 197.5, 228.5, 259.0, 289.5, 320.0, 350.5],
    [381.5, 411.0, 440.5, 471.0, 501.5, 532.0, 562.5, 593.5, 624.0, 654.5, 685.0, 715.5],
    [746.5, 776.0, 805.5, 836.0, 866.5, 897.0, 927.5, 958.5, 989.0, 1019.5, 1050.0, 1080.5],
    [1111.5, 1141.0, 1170.5, 1201.0, 1231.5, 1262.0, 1292.5, 1323.5, 1354.0, 1384.5, 1415.0, 1445.5],
    [1476.5, 1506.5, 1536.5, 1567.0, 1597.5, 1628.0, 1658.5, 1689.5, 1720.0, 1750.5, 1781.0, 1811.5],
    [1842.5, 1872.0, 1901.5, 1932.0, 1962.5, 1993.0, 2023.5, 2054.5, 2085.0, 2115.5, 2146.0, 2176.5],
    [2207.5, 2237.0, 2266.5, 2297.0, 2327.5, 2358.0, 2388.5, 2419.5, 2450.0, 2480.5, 2511.0, 2541.5],
    [2572.5, 2602.0, 2631.5, 2662.0, 2692.5, 2723.0, 2753.5, 2784.5, 2815.0, 2845.5, 2876.0, 2906.5],
    [2937.5, 2967.5, 2997.5, 3028.0, 3058.5, 3089.0, 3119.5, 3150.5, 3181.0, 3211.5, 3242.0, 3272.5],
    [3303.5, 3333.0, 3362.5, 3393.0, 3423.5, 3454.0, 3484.5, 3515.5, 3546.0, 3576.5, 3607.0, 3637.5]
  ]

  /** The forecast_reference_time points of 1970 to 1979, one year per row. */
  const Frt1970s: seq<seq<real>> := [
    [3668.5, 3698.0, 3727.5, 3758.0, 3788.5, 3819.0, 3849.5, 3880.5, 3911.0, 3941.5, 3972.0, 4002.5],
    [4033.5, 4063.0, 4092.5, 4123.0, 4153.5, 4184.0, 4214.5, 4245.5, 4276.0, 4306.5, 4337.0, 4367.5],
    [4398.5, 4428.5, 4458.5, 4489.0, 4519.5, 4550.0, 4580.5, 4611.5, 4642.0, 4672.5, 4703.0, 4733.5],
    [4764.5, 4794.0, 4823.5, 4854.0, 4884.5, 4915.0, 4945.5, 4976.5, 5007.0, 5037.5, 5068.0, 5098.5],
    [5129.5, 5159.0, 5188.5, 5219.0, 5249.5, 5280.0, 5310.5, 5341.5, 5372.0, 5402.5, 5433.0, 5463.5],
    [5494.5, 5524.0, 5553.5, 5584.0, 5614.5, 5645.0, 5675.5, 5706.5, 5737.0, 5767.5, 5798.0, 5828.5],
    [5859.5, 5889.5, 5919.5, 5950.0, 5980.5, 6011.0, 6041.5, 6072.5, 6103.0, 6133.5, 6164.0, 6194.5],
    [6225.5, 6255.0, 6284.5, 6315.0, 6345.5, 6376.0, 6406.5, 6437.5, 6468.0, 6498.5, 6529.0, 6559.5],
    [6590.5, 6620.0, 6649.5, 6680.0, 6710.5, 6741.0, 6771.5, 6802.5, 6833.0, 6863.5, 6894.0, 6924.5],
    [6955.5, 6985.0, 7014.5, 7045.0, 7075.5, 7106.0, 7136.5, 7167.5, 7198.0, 7228.5, 7259.0, 7289.5]
  ]

  /** The forecast_reference_time points of 1980 to 1989, one year per row. */
  const Frt1980s: seq<seq<real>> := [
    [7320.5, 7350.5, 7380.5, 7411.0, 7441.5, 7472.0, 7502.5, 7533.5, 7564.0, 7594.5, 7625.0, 7655.5],
    [7686.5, 7716.0, 7745.5, 7776.0, 7806.5, 7837.0, 7867.5, 7898.5, 7929.0, 7959.5, 7990.0, 8020.5],
    [8051.5, 8081.0, 8110.5, 8141.0, 8171.5, 8202.0, 8232.5, 8263.5, 8294.0, 8324.5, 8355.0, 8385.5],
    [8416.5, 8446.0, 8475.5, 8506.0, 8536.5, 8567.0, 8597.5, 8628.5, 8659.0, 8689.5, 8720.0, 8750.5],
    [8781.5, 8811.5, 8841.5, 8872.0, 8902.5, 8933.0, 8963.5, 8994.5, 9025.0, 9055.5, 9086.0, 9116.5],
    [9147.5, 9177.0, 9206.5, 9237.0, 9267.5, 9298.0, 9328.5, 9359.5, 9390.0, 9420.5, 9451.0, 9481.5],
    [9512.5, 9542.0, 9571.5, 9602.0, 9632.5, 9663.0, 9693.5, 9724.5, 9755.0, 9785.5, 9816.0, 9846.5],
    [9877.5, 9907.0, 9936.5, 9967.0, 9997.5, 10028.0, 10058.5, 10089.5, 10120.0, 10150.5, 10181.0, 10211.5],
    [10242.5, 10272.5, 10302.5, 10333.0, 10363.5, 10394.0, 10424.5, 10455.5, 10486.0, 10516.5, 10547.0, 10577.5],
    [10608.5, 10638.0, 10667.5, 10698.0, 10728.5, 10759.0, 10789.5, 10820.5, 10851.0, 10881.5, 10912.0, 10942.5]
  ]

  /** The forecast_reference_time points of 1990 to 1999, one year per row. */
  const Frt1990s: seq<seq<real>> := [
    [10973.5, 11003.0, 11032.5, 11063.0, 11093.5, 11124.0, 11154.5, 11185.5, 11216.0, 11246.5, 11277.0, 11307.5],
    [11338.5, 11368.0, 11397.5, 11428.0, 11458.5, 11489.0, 11519.5, 11550.5, 11581.0, 11611.5, 11642.0, 11672.5],
    [11703.5, 11733.5, 11763.5, 11794.0, 11824.5, 11855.0, 11885.5, 11916.5, 11947.0, 11977.5, 12008.0, 12038.5],
    [12069.5, 12099.0, 12128.5, 12159.0, 12189.5, 12220.0, 12250.5, 12281.5, 12312.0, 12342.5, 12373.0, 12403.5],
    [12434.5, 12464.0, 12493.5, 12524.0, 12554.5, 12585.0, 12615.5, 12646.5, 12677.0, 12707.5, 12738.0, 12768.5],
    [12799.5, 12829.0, 12858.5, 12889.0, 12919.5, 12950.0, 12980.5, 13011.5, 13042.0, 13072.5, 13103.0, 13133.5],
    [13164.5, 13194.5, 13224.5, 13255.0, 13285.5, 13316.0, 13346.5, 13377.5, 13408.0, 13438.5, 13469.0, 13499.5],
    [13530.5, 13560.0, 13589.5, 13620.0, 13650.5, 13681.0, 13711.5, 13742.5, 13773.0, 13803.5, 13834.0, 13864.5],
    [13895.5, 13925.0, 13954.5, 13985.0, 14015.5, 14046.0, 14076.5, 14107.5, 14138.0, 14168.5, 14199.0, 14229.5],
    [14260.5, 14290.0, 14319.5, 14350.0, 14380.5, 14411.0, 14441.5, 14472.5, 14503.0, 14533.5, 14564.0, 14594.5]
  ]

  /** The forecast_reference_time points of 2000 to 2009, one year per row. */
  const Frt2000s: seq<seq<real>> := [
    [14625.5, 14655.5, 14685.5, 14716.0, 14746.5, 14777.0, 14807.5, 14838.5, 14869.0, 14899.5, 14930.0, 14960.5],
    [14991.5, 15021.0, 15050.5, 15081.0, 15111.5, 15142.0, 15172.5, 15203.5, 15234.0, 15264.5, 15295.0, 15325.5],
    [15356.5, 15386.0, 15415.5, 15446.0, 15476.5, 15507.0, 15537.5, 15568.5, 15599.0, 15629.5, 15660.0, 15690.5],
    [15721.5, 15751.0, 15780.5, 15811.0, 15841.5, 15872.0, 15902.5, 15933.5, 15964.0, 15994.5, 16025.0, 16055.5],
    [16086.5, 16116.5, 16146.5, 16177.0, 16207.5, 16238.0, 16268.5, 16299.5, 16330.0, 16360.5, 16391.0, 16421.5],
    [16452.5, 16482.0, 16511.5, 16542.0, 16572.5, 16603.0, 16633.5, 16664.5, 16695.0, 16725.5, 16756.0, 16786.5],
    [16817.5, 16847.0, 16876.5, 16907.0, 16937.5, 16968.0, 16998.5, 17029.5, 17060.0, 17090.5, 17121.0, 17151.5],
    [17182.5, 17212.0, 17241.5, 17272.0, 17302.5, 17333.0, 17363.5, 17394.5, 17425.0, 17455.5, 17486.0, 17516.5],
    [17547.5, 17577.5, 17607.5, 17638.0, 17668.5, 17699.0, 17729.5, 17760.5, 17791.0, 17821.5, 17852.0, 17882.5],
    [17913.5, 17943.0, 17972.5, 18003.0, 18033.5, 18064.0, 18094.5, 18125.5, 18156.0, 18186.5, 18217.0, 18247.5]
  ]

  /** The forecast_reference_time points of 2010 to 2019, one year per row. */
  const Frt2010s: seq<seq<real>> := [
    [18278.5, 18308.0, 18337.5, 18368.0, 18398.5, 18429.0, 18459.5, 18490.5, 18521.0, 18551.5, 18582.0, 18612.5],
    [18643.5, 18673.0, 18702.5, 18733.0, 18763.5, 18794.0, 18824.5, 18855.5, 18886.0, 18916.5, 18947.0, 18977.5],
    [19008.5, 19038.5, 19068.5, 19099.0, 19129.5, 19160.0, 19190.5, 19221.5, 19252.0, 19282.5, 19313.0, 19343.5],
    [19374.5, 19404.0, 19433.5, 19464.0, 19494.5, 19525.0, 19555.5, 19586.5, 19617.0, 19647.5, 19678.0, 19708.5],
    [19739.5, 19769.0, 19798.5, 19829.0, 19859.5, 19890.0, 19920.5, 19951.5, 19982.0, 20012.5, 20043.0, 20073.5],
    [20104.5, 20134.0, 20163.5, 20194.0, 20224.5, 20255.0, 20285.5, 20316.5, 20347.0, 20377.5, 20408.0, 20438.5],
    [20469.5, 20499.5, 20529.5, 20560.0, 20590.5, 20621.0, 20651.5, 20682.5, 20713.0, 20743.5, 20774.0, 20804.5],
    [20835.5, 20865.0, 20894.5, 20925.0, 20955.5, 20986.0, 21016.5, 21047.5, 21078.0, 21108.5, 21139.0, 21169.5],
    [21200.5, 21230.0, 21259.5, 21290.0, 21320.5, 21351.0, 21381.5, 21412.5, 21443.0, 21473.5, 21504.0, 21534.5],
    [21565.5, 21595.0, 21624.5, 21655.0, 21685.5, 21716.0, 21746.5, 21777.5, 21808.0, 21838.5, 21869.0, 21899.5]
  ]

  /** The forecast_reference_time points of 2020. */
  const Frt2020: seq<seq<real>> := [
    [21930.5, 21960.5, 21990.5, 22021.0, 22051.5, 22082.0, 22112.5, 22143.5, 22174.0, 22204.5, 22235.0, 22265.5]
  ]

  /** The time table as the script writes it, January 1960 to December 2020. */
  const TimeRows: seq<seq<real>> := Blocks([Time1960s, Time1970s, Time1980s, Time1990s, Time2000s, Time2010s, Time2020])

  const TimePoints: seq<real> := Concat(TimeRows)

  /** The forecast_reference_time table, written out a second time. */
  const FrtRows: seq<seq<real>> := Blocks([Frt1960s, Frt1970s, Frt1980s, Frt1990s, Frt2000s, Frt2010s, Frt2020])

  const FrtPoints: seq<real> := Concat(FrtRows)

  /** Units of both tables: days since 1960-01-01 00:00:00, gregorian calendar. */
  const TimeUnits: Units := DaysSince(1960, Gregorian)

  // Each block of rows holds the mid-month points of its years.

  lemma Time1960sAreYears()
    ensures |Time1960s| == 10 && GregorianRowsFrom(Time1960s, 0)
  {
    GregorianDecade(Time1960s, 0);
  }

  lemma Time1970sAreYears()
    ensures |Time1970s| == 10 && GregorianRowsFrom(Time1970s, 10)
  {
    GregorianDecade(Time1970s, 10);
  }

  lemma Time1980sAreYears()
    ensures |Time1980s| == 10 && GregorianRowsFrom(Time1980s, 20)
  {
    GregorianDecade(Time1980s, 20);
  }

  lemma Time1990sAreYears()
    ensures |Time1990s| == 10 && GregorianRowsFrom(Time1990s, 30)
  {
    GregorianDecade(Time1990s, 30);
  }

  lemma Time2000sAreYears()
    ensures |Time2000s| == 10 && GregorianRowsFrom(Time2000s, 40)
  {
    GregorianDecade(Time2000s, 40);
  }

  lemma Time2010sAreYears()
    ensures |Time2010s| == 10 && GregorianRowsFrom(Time2010s, 50)
  {
    GregorianDecade(Time2010s, 50);
  }

  lemma Time2020AreYears()
    ensures |Time2020| == 1 && GregorianRowsFrom(Time2020, 60)
  {
  }

  lemma Frt1960sAreYears()
    ensures |Frt1960s| == 10 && GregorianRowsFrom(Frt1960s, 0)
  {
    GregorianDecade(Frt1960s, 0);
  }

  lemma Frt1970sAreYears()
    ensures |Frt1970s| == 10 && GregorianRowsFrom(Frt1970s, 10)
  {
    GregorianDecade(Frt1970s, 10);
  }

  lemma Frt1980sAreYears()
    ensures |Frt1980s| == 10 && GregorianRowsFrom(Frt1980s, 20)
  {
    GregorianDecade(Frt1980s, 20);
  }

  lemma Frt1990sAreYears()
    ensures |Frt1990s| == 10 && GregorianRowsFrom(Frt1990s, 30)
  {
    GregorianDecade(Frt1990s, 30);
  }

  lemma Frt2000sAreYears()
    ensures |Frt2000s| == 10 && GregorianRowsFrom(Frt2000s, 40)
  {
    GregorianDecade(Frt2000s, 40);
  }

  lemma Frt2010sAreYears()
    ensures |Frt2010s| == 10 && GregorianRowsFrom(Frt2010s, 50)
  {
    GregorianDecade(Frt2010s, 50);
  }

  lemma Frt2020AreYears()
    ensures |Frt2020| == 1 && GregorianRowsFrom(Frt2020, 60)
  {
  }

  /** The rows of the time table are the years 1960 to 2020. */
  lemma TimeRowsAreYears()
    ensures |TimeRows| == 61 && GregorianRowsFrom(TimeRows, 0)
  {
    Time1960sAreYears();
    Time1970sAreYears();
    Time1980sAreYears();
    Time1990sAreYears();
    Time2000sAreYears();
    Time2010sAreYears();
    Time2020AreYears();
    var blocks := [Time1960s, Time1970s, Time1980s, Time1990s, Time2000s, Time2010s, Time2020];
    forall i | 0 <= i < |blocks|
      ensures GregorianRowsFrom(blocks[i], 10 * i) && (i < |blocks| - 1 ==> |blocks[i]| == 10)
    {
      if i == 0 {} else if i == 1 {} else if i == 2 {} else if i == 3 {} else if i == 4 {} else if i == 5 {} else {}
    }
    GregorianBlocks(blocks, 0);
  }

  /** Each time point is the Gregorian mid-month since 1960-01-01, one per month of the table. */
  lemma TimeIsMidMonths()
    ensures |TimePoints| == 732
    ensures TimePoints == MidMonths(Gregorian, 1960, 732)
  {
    TimeRowsAreYears();
    Gregorian1960Table(TimeRows);
    assert FullRows(TimeRows);
    ConcatLength(TimeRows);
    MonthlyAxisIsGenerated(TimePoints, Gregorian, 1960);
  }

  /** The rows of the forecast_reference_time table are the same years. */
  lemma FrtRowsAreYears()
    ensures |FrtRows| == 61 && GregorianRowsFrom(FrtRows, 0)
  {
    Frt1960sAreYears();
    Frt1970sAreYears();
    Frt1980sAreYears();
    Frt1990sAreYears();
    Frt2000sAreYears();
    Frt2010sAreYears();
    Frt2020AreYears();
    var blocks := [Frt1960s, Frt1970s, Frt1980s, Frt1990s, Frt2000s, Frt2010s, Frt2020];
    forall i | 0 <= i < |blocks|
      ensures GregorianRowsFrom(blocks[i], 10 * i) && (i < |blocks| - 1 ==> |blocks[i]| == 10)
    {
      if i == 0 {} else if i == 1 {} else if i == 2 {} else if i == 3 {} else if i == 4 {} else if i == 5 {} else {}
    }
    GregorianBlocks(blocks, 0);
  }

  /** The forecast_reference_time table holds the same mid-months. */
  lemma FrtIsMidMonths()
    ensures |FrtPoints| == 732
    ensures FrtPoints == MidMonths(Gregorian, 1960, 732)
  {
    FrtRowsAreYears();
    Gregorian1960Table(FrtRows);
    assert FullRows(FrtRows);
    ConcatLength(FrtRows);
    MonthlyAxisIsGenerated(FrtPoints, Gregorian, 1960);
  }

  /** The forecast_reference_time table equals the time table, entry for entry. */
  lemma FrtEqualsTime()
    ensures FrtPoints == TimePoints
  {
    TimeIsMidMonths();
    FrtIsMidMonths();
  }

  /** Number of months in the tables. */
  const MonthCount: nat := 732

  /** The 732 Gregorian mid-months since 1960-01-01: the points both tables hold. */
  function Months(): (s: seq<real>)
    ensures |s| == 732 && IsMonthlyAxis(s, Gregorian, 1960)
    ensures forall i, j :: 0 <= i < j < |s| ==> s[i] < s[j]
    ensures StrictlyMonotonic(s)
  {
    MonthlyAxisIncreases(MidMonths(Gregorian, 1960, MonthCount), Gregorian, 1960);
    MidMonths(Gregorian, 1960, MonthCount)
  }

  /** The time table is the monthly axis. */
  lemma TimeIsMonths()
    ensures TimePoints == Months()
  {
    TimeIsMidMonths();
  }

  /** The axis runs from 15.5 (mid-January 1960) to 22265.5 (mid-December 2020). */
  lemma MonthsEnds()
    ensures Months()[0] == 15.5 && Months()[|Months()| - 1] == 22265.5
  {
    GregorianAxisEnds(Months(), 60, 22265.5);
  }

  /**
   * From one month to the next the axis rises by 29.5 to 31 days, and each February
   * is centred 14.5 days into the month in a leap year and 14 days in any other year.
   */
  lemma MonthsSteps()
    ensures forall k :: 0 <= k < |Months()| - 1 ==> 29.5 <= Months()[k + 1] - Months()[k] <= 31.0
    ensures forall k :: 0 <= k < |Months()| && MonthOf(k) == 2 ==>
      Months()[k] - DaysBefore(Gregorian, 1960, k) as real == if IsLeapYear(YearOf(1960, k)) then 14.5 else 14.0
  {
    GregorianAxisSteps(Months(), 1960);
    GregorianAxisFebruaries(Months(), 1960);
  }

  /**
   * The bounds guess_bounds gives the forecast_reference_time tile the axis: each cell
   * ends where the next begins and holds its own mid-month point strictly inside.
   */
  lemma FrtBounds()
    ensures var b := GuessedBounds(Months());
      (forall k :: 0 <= k < |Months()| - 1 ==> b[k].upper == b[k + 1].lower) &&
      (forall k :: 0 <= k < |Months()| ==> b[k].lower < Months()[k] < b[k].upper)
  {
    MonthlyAxisGuessedBounds(Months(), Gregorian, 1960);
  }

  const SourceFile: string := "combined_sources_BC_biomass_1960-2020_greg.nc"
  const TitleText: string := "Time-varying monthly 3D emissions of black carbon from 1960 to 2020 (from biomass burning sources only)"
  const ReferenceText: string := "Granier et al., Clim. Change, 2011; Lamarque et al., Atmos. Chem. Phys., 2010"

  /** The attributes the script assigns in lines 89 to 106, before its history entry; `created` is the creation date it writes. */
  function Before(created: string): map<Key, Value>
  {
    map[
      VerticalScaling := Text("high_level"), HighestLevel := Text("21"), LowestLevel := Text("1"),
      UmStashSource := Text("m01s00i322"), TracerName := Text("BC_biomass"), EmissionType := Text("1"),
      UpdateType := Text("1"), UpdateFreqInHours := Text("120"), UmVersion := Text("10.6"),
      Source := Text(SourceFile), Title := Text(TitleText), FileVersion := Text("v2"),
      FileCreationDate := Text(created), Grid := Text(N96eGrid)
    ]
  }

  /** The attributes it assigns after the history entry. */
  function After(): map<Key, Value>
  {
    map[
      Institution := Text(Cambridge), Reference := Text(ReferenceText)
    ]
  }

  /** Every attribute the script assigns with `attributes[key] = value`. */
  function Assigned(created: string): map<Key, Value>
  {
    map[
      VerticalScaling := Text("high_level"), HighestLevel := Text("21"), LowestLevel := Text("1"),
      UmStashSource := Text("m01s00i322"), TracerName := Text("BC_biomass"), EmissionType := Text("1"),
      UpdateType := Text("1"), UpdateFreqInHours := Text("120"), UmVersion := Text("10.6"),
      Source := Text(SourceFile), Title := Text(TitleText), FileVersion := Text("v2"),
      FileCreationDate := Text(created), Grid := Text(N96eGrid), Institution := Text(Cambridge),
      Reference := Text(ReferenceText)
    ]
  }

  /** The assignments are those before the history entry and those after it; neither touches the history or a deleted key. */
  lemma AssignedSplits(created: string)
    ensures Before(created) + After() == Assigned(created)
    ensures History !in Before(created) && History !in After()
    ensures Before(created).Keys !! Deleted && After().Keys !! Deleted
  {
  }

  /** The loaded attributes the script deletes; each must be present. */
  const Deleted: set<Key> := {LoadedCreationDate, Description}

  /** No assigned key is the history, a deleted key or a restricted one. */
  lemma AssignedKeys(created: string)
    ensures Disjoint(Assigned(created), Deleted)
    ensures Assigned(created).Keys !! RestrictedKeys
  {
  }

  /** The attributes written on the emission variable rather than on the file. */
  const LocalKeys: seq<Key> := [VerticalScaling, MissingValue, UmStashSource, TracerName, HighestLevel, LowestLevel]

  /**
   * What the cube must offer for the coordinate statements to succeed:
   * a time dimension of 732 months leading a (time, latitude,
   * longitude) field, latitude bounds (copied from the grid by the regridding), and
   * no vertical or forecast coordinates yet.
   */
  predicate CoordinatesReady(time: Coord, bounded: set<Dim>, shape: seq<nat>, level: Option<Coord>, frt: Option<Coord>, fp: Option<Coord>)
  {
    |time.points| == 732 &&
    Y in bounded &&
    |shape| == 3 && shape[0] == 732 && level.None? && frt.None? && fp.None?
  }

  /**
   * What the cube must offer for the script to reach its end: a string history,
   * every attribute it deletes, and what the coordinate statements need.
   */
  predicate Ready(attributes: map<Key, Value>, time: Coord, bounded: set<Dim>, shape: seq<nat>, level: Option<Coord>, frt: Option<Coord>, fp: Option<Coord>)
  {
    History in attributes && attributes[History].Text? && Deleted <= attributes.Keys &&
    CoordinatesReady(time, bounded, shape, level, frt, fp)
  }

  /** The attributes the script leaves on a cube loaded with `loaded`. */
  function Attributes(loaded: map<Key, Value>, created: string, stamp: string, script: string): map<Key, Value>
    requires History in loaded && loaded[History].Text?
  {
    Assemble(loaded, Assigned(created), Some((stamp, script)), Deleted)
  }

  /**
   * A high-level emission between levels 1 and 21 (both numbers written as decimal strings),
   * emission and update types both '1', and all six local keys present, so all are
   * written on the emission variable.
   * The new history starts with the time stamp and ends with the old history, and the
   * keys are the loaded ones and the assigned ones, less the deleted ones, plus missing_value.
   */
  lemma AttributeValues(loaded: map<Key, Value>, created: string, stamp: string, script: string)
    requires History in loaded && loaded[History].Text?
    ensures var m := Attributes(loaded, created, stamp, script);
      VerticalScaling in m && m[VerticalScaling] == Text("high_level") &&
      EmissionType in m && UpdateType in m && m[UpdateType] == m[EmissionType] == Text("1") &&
      LowestLevel in m && m[LowestLevel] == Text("1") && HighestLevel in m && m[HighestLevel] == Text("21") &&
      IsDecimal(m[LowestLevel].s) && IsDecimal(m[HighestLevel].s) &&
      DecimalValue(m[LowestLevel].s) <= DecimalValue(m[HighestLevel].s) &&
      LocalAttributes(m, LocalKeys).Keys == set k | k in LocalKeys &&
      History in m && m[History].Text? && m[History].s[..|stamp|] == stamp && EndsWith(m[History].s, loaded[History].s) &&
      m.Keys == loaded.Keys + Assigned(created).Keys - Deleted + {MissingValue}
  {
    AssignedKeys(created);
    AssembleValues(loaded, Assigned(created), Some((stamp, script)), Deleted);
    AssembleKeys(loaded, Assigned(created), Some((stamp, script)), Deleted);
  }

  /** The dictionary after lines 89 to 106, one assignment after another. */
  function Labelled(loaded: map<Key, Value>, created: string): map<Key, Value>
  {
    loaded
      [VerticalScaling := Text("high_level")][HighestLevel := Text("21")][LowestLevel := Text("1")]
      [UmStashSource := Text("m01s00i322")][TracerName := Text("BC_biomass")][EmissionType := Text("1")]
      [UpdateType := Text("1")][UpdateFreqInHours := Text("120")][UmVersion := Text("10.6")]
      [Source := Text(SourceFile)][Title := Text(TitleText)][FileVersion := Text("v2")]
      [FileCreationDate := Text(created)][Grid := Text(N96eGrid)]
  }

  /** Made one by one, the assignments of lines 89 to 106 overwrite the loaded attributes with `Before`. */
  lemma LabelledMerges(loaded: map<Key, Value>, created: string)
    ensures Labelled(loaded, created) == loaded + Before(created)
  {
  }

  /** Lines 89 to 106, the assignments before the history entry. */
  method Label(cube: Cube, created: string)
    modifies cube`attributes
    ensures cube.attributes == Labelled(old(cube.attributes), created)
  {
    cube.SetAttribute(VerticalScaling, Text("high_level"));
    cube.SetAttribute(HighestLevel, Text("21"));
    cube.SetAttribute(LowestLevel, Text("1"));
    cube.SetAttribute(UmStashSource, Text("m01s00i322"));
    cube.SetAttribute(TracerName, Text("BC_biomass"));
    cube.SetAttribute(EmissionType, Text("1"));
    cube.SetAttribute(UpdateType, Text("1"));
    cube.SetAttribute(UpdateFreqInHours, Text("120"));
    cube.SetAttribute(UmVersion, Text("10.6"));
    cube.SetAttribute(Source, Text(SourceFile));
    cube.SetAttribute(Title, Text(TitleText));
    cube.SetAttribute(FileVersion, Text("v2"));
    cube.SetAttribute(FileCreationDate, Text(created));
    cube.SetAttribute(Grid, Text(N96eGrid));
  }

  /** Line 107 and the assignments after it: the history dated, then overwritten by `After`. */
  method Credit(cube: Cube, stamp: string, script: string) returns (r: Outcome)
    modifies cube`attributes
    ensures r == if History !in old(cube.attributes) then Fail(KeyError(History))
                 else if !old(cube.attributes)[History].Text? then Fail(TypeError)
                 else Pass
    ensures r.Pass? ==> cube.attributes == old(cube.attributes)[History := Text(PrependedHistory(stamp, script, old(cube.attributes)[History].s))] + After()
  {
    r := cube.PrependHistory(stamp, script);
    if r.Fail? { return; }
    cube.SetAttribute(Institution, Text(Cambridge));
    cube.SetAttribute(Reference, Text(ReferenceText));
  }

  /** Lines 111 to 112: the `del` statements, each a KeyError when its key is missing. */
  method Prune(cube: Cube) returns (r: Outcome)
    modifies cube`attributes
    ensures r == if LoadedCreationDate !in old(cube.attributes) then Fail(KeyError(LoadedCreationDate))
                 else if Description !in old(cube.attributes) then Fail(KeyError(Description))
                 else Pass
    ensures r.Pass? ==> cube.attributes == old(cube.attributes) - Deleted
  {
    r := cube.DeleteAttribute(LoadedCreationDate);
    if r.Fail? { return; }
    r := cube.DeleteAttribute(Description);
  }

  /**
   * Lines 89 to 112 of the script: the assignments, the history entry and the
   * deletions, which fail on a missing or non-string history or a missing deleted key.
   */
  method WriteAttributes(cube: Cube, created: string, stamp: string, script: string) returns (r: Outcome)
    modifies cube`attributes
    ensures r == if History !in old(cube.attributes) then Fail(KeyError(History))
                 else if !old(cube.attributes)[History].Text? then Fail(TypeError)
                 else if LoadedCreationDate !in old(cube.attributes) then Fail(KeyError(LoadedCreationDate))
                 else if Description !in old(cube.attributes) then Fail(KeyError(Description))
                 else Pass
    ensures r.Pass? ==> cube.attributes == Edited(old(cube.attributes), Assigned(created), Some((stamp, script)), Deleted)
  {
    AssignedSplits(created);
    Label(cube, created);
    LabelledMerges(old(cube.attributes), created);
    r := Credit(cube, stamp, script);
    if r.Fail? { return; }
    r := Prune(cube);
    if r.Pass? {
      EditedAroundHistory(old(cube.attributes), Before(created), After(), stamp, script, Deleted);
    }
  }

  /** Lines 116 to 193: the time coordinate named, given its units and the table of points. */
  method WriteTime(cube: Cube) returns (r: Outcome)
    modifies cube`time
    ensures r == if |old(cube.time.points)| == 732 then Pass else Fail(ValueError)
    ensures cube.time == old(cube.time).(name := "time", units := TimeUnits, points := if r.Pass? then Months() else old(cube.time.points))
  {
    TimeIsMonths();
    r := SetMonthlyTime(cube, TimeUnits, TimePoints);
  }

  /** Lines 214 to 297: forecast_reference_time from its own table, its bounds guessed, then forecast_period. */
  method WriteForecastAxes(cube: Cube) returns (r: Outcome)
    modifies cube`frt, cube`fp
    ensures r == if old(cube.frt).None? && old(cube.fp).None? && |cube.shape| > 0 && cube.shape[0] == 732 then Pass else Fail(ValueError)
    ensures r.Pass? ==> cube.frt == Some(ForecastReferenceTime(TimeUnits, Months()).(bounds := GuessedBounds(Months())))
    ensures r.Pass? ==> cube.fp == Some(ForecastPeriod())
  {
    FrtEqualsTime();
    TimeIsMonths();
    r := AddForecastAxes(cube, TimeUnits, FrtPoints);
  }

  /**
   * Lines 116 to 297: the time block, the z block, the 64-bit casts, of which
   * only the latitude bounds cast can fail, and the forecast block.
   */
  method WriteCoordinates(cube: Cube) returns (r: Outcome)
    requires cube.Valid()
    modifies cube`time, cube`level, cube`data, cube`shape, cube`dims, cube`frt, cube`fp
    ensures cube.Valid()
    ensures r.Pass? <==> CoordinatesReady(old(cube.time), old(cube.bounded), old(cube.shape), old(cube.level), old(cube.frt), old(cube.fp))
    ensures r.Pass? ==> cube.time == old(cube.time).(name := "time", units := TimeUnits, points := Months())
    ensures r.Pass? ==> cube.level == Some(SurfaceLevel()) && old(cube.data).Axis? && cube.data == InjectLevel(old(cube.data))
    ensures r.Pass? ==> cube.shape == [old(cube.shape)[0], 1, old(cube.shape)[1], old(cube.shape)[2]]
    ensures r.Pass? ==> cube.dims == [old(cube.dims)[0], Z, old(cube.dims)[1], old(cube.dims)[2]]
    ensures r.Pass? ==> forall t: nat, y: nat, x: nat :: IsIndex(old(cube.data), [t, y, x]) ==>
      IsIndex(cube.data, [t, 0, y, x]) && Get(cube.data, [t, 0, y, x]) == Get(old(cube.data), [t, y, x])
    ensures r.Pass? ==> cube.frt == Some(ForecastReferenceTime(TimeUnits, Months()).(bounds := GuessedBounds(Months())))
    ensures r.Pass? ==> cube.fp == Some(ForecastPeriod())
  {
    r := WriteTime(cube);
    if r.Fail? { return; }
    r := InjectSurfaceLevel(cube);
    if r.Fail? { return; }
    r := cube.CastLatitudeBounds();
    if r.Fail? { return; }
    r := WriteForecastAxes(cube);
  }

  /**
   * The script from the regridded cube to the cube it saves: `created` is the creation date, `stamp` the time stamp of the history entry and `script` the script's path.
   */
  method Run(cube: Cube, created: string, stamp: string, script: string) returns (r: Outcome)
    requires cube.Valid()
    modifies cube
    ensures cube.Valid()
    ensures r.Pass? <==> Ready(old(cube.attributes), old(cube.time), old(cube.bounded), old(cube.shape), old(cube.level), old(cube.frt), old(cube.fp))
    ensures History !in old(cube.attributes) ==> r == Fail(KeyError(History))
    ensures r.Pass? ==> cube.attributes == Attributes(old(cube.attributes), created, stamp, script)
    ensures r.Pass? ==> cube.time == old(cube.time).(name := "time", units := TimeUnits, points := Months())
    ensures r.Pass? ==> cube.level == Some(SurfaceLevel()) && old(cube.data).Axis? && cube.data == InjectLevel(old(cube.data))
    ensures r.Pass? ==> cube.shape == [old(cube.shape)[0], 1, old(cube.shape)[1], old(cube.shape)[2]]
    ensures cube.bounded == old(cube.bounded)
    ensures r.Pass? ==> cube.dims == [old(cube.dims)[0], Z, old(cube.dims)[1], old(cube.dims)[2]]
    ensures r.Pass? ==> forall t: nat, y: nat, x: nat :: IsIndex(old(cube.data), [t, y, x]) ==>
      IsIndex(cube.data, [t, 0, y, x]) && Get(cube.data, [t, 0, y, x]) == Get(old(cube.data), [t, y, x])
    ensures r.Pass? ==> cube.frt == Some(ForecastReferenceTime(TimeUnits, Months()).(bounds := GuessedBounds(Months())))
    ensures r.Pass? ==> cube.fp == Some(ForecastPeriod())
    ensures r.Pass? ==> cube.cellMethods == [MeanOverTime] && cube.fillValue == Some(FillValue)
    ensures r.Pass? ==> MissingValue in cube.attributes && cube.attributes[MissingValue] == Number(cube.fillValue.value)
  {
    r := WriteAttributes(cube, created, stamp, script);
    if r.Fail? { return; }
    r := WriteCoordinates(cube);
    if r.Fail? { return; }
    FinishForSaving(cube);
  }
}

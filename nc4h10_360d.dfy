/**
 * The n-butane surface-emission script for 1950 to 2020 on the 360_day calendar
 * (emissions/python/timeseries_1950-2020/regrid_nC4H10_emissions_n96e_360d.py): a
 * monthly time series of 852 months since 1950-01-01 whose regridded
 * (time, latitude, longitude) field becomes (time, 1, latitude, longitude).
 */
module RegridNButane360 {
  import opened Calendars
  import opened Tables
  import opened Arrays
  import opened Coords
  import opened Cubes
  import opened Steps

  /** The time points of 1950 to 1959, one year per row. */
  const Time1950s: seq<seq<real>> := [
    [15.0, 45.0, 75.0, 105.0, 135.0, 165.0, 195.0, 225.0, 255.0, 285.0, 315.0, 345.0],
    [375.0, 405.0, 435.0, 465.0, 495.0, 525.0, 555.0, 585.0, 615.0, 645.0, 675.0, 705.0],
    [735.0, 765.0, 795.0, 825.0, 855.0, 885.0, 915.0, 945.0, 975.0, 1005.0, 1035.0, 1065.0],
    [1095.0, 1125.0, 1155.0, 1185.0, 1215.0, 1245.0, 1275.0, 1305.0, 1335.0, 1365.0, 1395.0, 1425.0],
    [1455.0, 1485.0, 1515.0, 1545.0, 1575.0, 1605.0, 1635.0, 1665.0, 1695.0, 1725.0, 1755.0, 1785.0],
    [1815.0, 1845.0, 1875.0, 1905.0, 1935.0, 1965.0, 1995.0, 2025.0, 2055.0, 2085.0, 2115.0, 2145.0],
    [2175.0, 2205.0, 2235.0, 2265.0, 2295.0, 2325.0, 2355.0, 2385.0, 2415.0, 2445.0, 2475.0, 2505.0],
    [2535.0, 2565.0, 2595.0, 2625.0, 2655.0, 2685.0, 2715.0, 2745.0, 2775.0, 2805.0, 2835.0, 2865.0],
    [2895.0, 2925.0, 2955.0, 2985.0, 3015.0, 3045.0, 3075.0, 3105.0, 3135.0, 3165.0, 3195.0, 3225.0],
    [3255.0, 3285.0, 3315.0, 3345.0, 3375.0, 3405.0, 3435.0, 3465.0, 3495.0, 3525.0, 3555.0, 3585.0]
  ]

  /** The time points of 1960 to 1969, one year per row. */
  const Time1960s: seq<seq<real>> := [
    [3615.0, 3645.0, 3675.0, 3705.0, 3735.0, 3765.0, 3795.0, 3825.0, 3855.0, 3885.0, 3915.0, 3945.0],
    [3975.0, 4005.0, 4035.0, 4065.0, 4095.0, 4125.0, 4155.0, 4185.0, 4215.0, 4245.0, 4275.0, 4305.0],
    [4335.0, 4365.0, 4395.0, 4425.0, 4455.0, 4485.0, 4515.0, 4545.0, 4575.0, 4605.0, 4635.0, 4665.0],
    [4695.0, 4725.0, 4755.0, 4785.0, 4815.0, 4845.0, 4875.0, 4905.0, 4935.0, 4965.0, 4995.0, 5025.0],
    [5055.0, 5085.0, 5115.0, 5145.0, 5175.0, 5205.0, 5235.0, 5265.0, 5295.0, 5325.0, 5355.0, 5385.0],
    [5415.0, 5445.0, 5475.0, 5505.0, 5535.0, 5565.0, 5595.0, 5625.0, 5655.0, 5685.0, 5715.0, 5745.0],
    [5775.0, 5805.0, 5835.0, 5865.0, 5895.0, 5925.0, 5955.0, 5985.0, 6015.0, 6045.0, 6075.0, 6105.0],
    [6135.0, 6165.0, 6195.0, 6225.0, 6255.0, 6285.0, 6315.0, 6345.0, 6375.0, 6405.0, 6435.0, 6465.0],
    [6495.0, 6525.0, 6555.0, 6585.0, 6615.0, 6645.0, 6675.0, 6705.0, 6735.0, 6765.0, 6795.0, 6825.0],
    [6855.0, 6885.0, 6915.0, 6945.0, 6975.0, 7005.0, 7035.0, 7065.0, 7095.0, 7125.0, 7155.0, 7185.0]
  ]

  /** The time points of 1970 to 1979, one year per row. */
  const Time1970s: seq<seq<real>> := [
    [7215.0, 7245.0, 7275.0, 7305.0, 7335.0, 7365.0, 7395.0, 7425.0, 7455.0, 7485.0, 7515.0, 7545.0],
    [7575.0, 7605.0, 7635.0, 7665.0, 7695.0, 7725.0, 7755.0, 7785.0, 7815.0, 7845.0, 7875.0, 7905.0],
    [7935.0, 7965.0, 7995.0, 8025.0, 8055.0, 8085.0, 8115.0, 8145.0, 8175.0, 8205.0, 8235.0, 8265.0],
    [8295.0, 8325.0, 8355.0, 8385.0, 8415.0, 8445.0, 8475.0, 8505.0, 8535.0, 8565.0, 8595.0, 8625.0],
    [8655.0, 8685.0, 8715.0, 8745.0, 8775.0, 8805.0, 8835.0, 8865.0, 8895.0, 8925.0, 8955.0, 8985.0],
    [9015.0, 9045.0, 9075.0, 9105.0, 9135.0, 9165.0, 9195.0, 9225.0, 9255.0, 9285.0, 9315.0, 9345.0],
    [9375.0, 9405.0, 9435.0, 9465.0, 9495.0, 9525.0, 9555.0, 9585.0, 9615.0, 9645.0, 9675.0, 9705.0],
    [9735.0, 9765.0, 9795.0, 9825.0, 9855.0, 9885.0, 9915.0, 9945.0, 9975.0, 10005.0, 10035.0, 10065.0],
    [10095.0, 10125.0, 10155.0, 10185.0, 10215.0, 10245.0, 10275.0, 10305.0, 10335.0, 10365.0, 10395.0, 10425.0],
    [10455.0, 10485.0, 10515.0, 10545.0, 10575.0, 10605.0, 10635.0, 10665.0, 10695.0, 10725.0, 10755.0, 10785.0]
  ]

  /** The time points of 1980 to 1989, one year per row. */
  const Time1980s: seq<seq<real>> := [
    [10815.0, 10845.0, 10875.0, 10905.0, 10935.0, 10965.0, 10995.0, 11025.0, 11055.0, 11085.0, 11115.0, 11145.0],
    [11175.0, 11205.0, 11235.0, 11265.0, 11295.0, 11325.0, 11355.0, 11385.0, 11415.0, 11445.0, 11475.0, 11505.0],
    [11535.0, 11565.0, 11595.0, 11625.0, 11655.0, 11685.0, 11715.0, 11745.0, 11775.0, 11805.0, 11835.0, 11865.0],
    [11895.0, 11925.0, 11955.0, 11985.0, 12015.0, 12045.0, 12075.0, 12105.0, 12135.0, 12165.0, 12195.0, 12225.0],
    [12255.0, 12285.0, 12315.0, 12345.0, 12375.0, 12405.0, 12435.0, 12465.0, 12495.0, 12525.0, 12555.0, 12585.0],
    [12615.0, 12645.0, 12675.0, 12705.0, 12735.0, 12765.0, 12795.0, 12825.0, 12855.0, 12885.0, 12915.0, 12945.0],
    [12975.0, 13005.0, 13035.0, 13065.0, 13095.0, 13125.0, 13155.0, 13185.0, 13215.0, 13245.0, 13275.0, 13305.0],
    [13335.0, 13365.0, 13395.0, 13425.0, 13455.0, 13485.0, 13515.0, 13545.0, 13575.0, 13605.0, 13635.0, 13665.0],
    [13695.0, 13725.0, 13755.0, 13785.0, 13815.0, 13845.0, 13875.0, 13905.0, 13935.0, 13965.0, 13995.0, 14025.0],
    [14055.0, 14085.0, 14115.0, 14145.0, 14175.0, 14205.0, 14235.0, 14265.0, 14295.0, 14325.0, 14355.0, 14385.0]
  ]

  /** The time points of 1990 to 1999, one year per row. */
  const Time1990s: seq<seq<real>> := [
    [14415.0, 14445.0, 14475.0, 14505.0, 14535.0, 14565.0, 14595.0, 14625.0, 14655.0, 14685.0, 14715.0, 14745.0],
    [14775.0, 14805.0, 14835.0, 14865.0, 14895.0, 14925.0, 14955.0, 14985.0, 15015.0, 15045.0, 15075.0, 15105.0],
    [15135.0, 15165.0, 15195.0, 15225.0, 15255.0, 15285.0, 15315.0, 15345.0, 15375.0, 15405.0, 15435.0, 15465.0],
    [15495.0, 15525.0, 15555.0, 15585.0, 15615.0, 15645.0, 15675.0, 15705.0, 15735.0, 15765.0, 15795.0, 15825.0],
    [15855.0, 15885.0, 15915.0, 15945.0, 15975.0, 16005.0, 16035.0, 16065.0, 16095.0, 16125.0, 16155.0, 16185.0],
    [16215.0, 16245.0, 16275.0, 16305.0, 16335.0, 16365.0, 16395.0, 16425.0, 16455.0, 16485.0, 16515.0, 16545.0],
    [16575.0, 16605.0, 16635.0, 16665.0, 16695.0, 16725.0, 16755.0, 16785.0, 16815.0, 16845.0, 16875.0, 16905.0],
    [16935.0, 16965.0, 16995.0, 17025.0, 17055.0, 17085.0, 17115.0, 17145.0, 17175.0, 17205.0, 17235.0, 17265.0],
    [17295.0, 17325.0, 17355.0, 17385.0, 17415.0, 17445.0, 17475.0, 17505.0, 17535.0, 17565.0, 17595.0, 17625.0],
    [17655.0, 17685.0, 17715.0, 17745.0, 17775.0, 17805.0, 17835.0, 17865.0, 17895.0, 17925.0, 17955.0, 17985.0]
  ]

  /** The time points of 2000 to 2009, one year per row. */
  const Time2000s: seq<seq<real>> := [
    [18015.0, 18045.0, 18075.0, 18105.0, 18135.0, 18165.0, 18195.0, 18225.0, 18255.0, 18285.0, 18315.0, 18345.0],
    [18375.0, 18405.0, 18435.0, 18465.0, 18495.0, 18525.0, 18555.0, 18585.0, 18615.0, 18645.0, 18675.0, 18705.0],
    [18735.0, 18765.0, 18795.0, 18825.0, 18855.0, 18885.0, 18915.0, 18945.0, 18975.0, 19005.0, 19035.0, 19065.0],
    [19095.0, 19125.0, 19155.0, 19185.0, 19215.0, 19245.0, 19275.0, 19305.0, 19335.0, 19365.0, 19395.0, 19425.0],
    [19455.0, 19485.0, 19515.0, 19545.0, 19575.0, 19605.0, 19635.0, 19665.0, 19695.0, 19725.0, 19755.0, 19785.0],
    [19815.0, 19845.0, 19875.0, 19905.0, 19935.0, 19965.0, 19995.0, 20025.0, 20055.0, 20085.0, 20115.0, 20145.0],
    [20175.0, 20205.0, 20235.0, 20265.0, 20295.0, 20325.0, 20355.0, 20385.0, 20415.0, 20445.0, 20475.0, 20505.0],
    [20535.0, 20565.0, 20595.0, 20625.0, 20655.0, 20685.0, 20715.0, 20745.0, 20775.0, 20805.0, 20835.0, 20865.0],
    [20895.0, 20925.0, 20955.0, 20985.0, 21015.0, 21045.0, 21075.0, 21105.0, 21135.0, 21165.0, 21195.0, 21225.0],
    [21255.0, 21285.0, 21315.0, 21345.0, 21375.0, 21405.0, 21435.0, 21465.0, 21495.0, 21525.0, 21555.0, 21585.0]
  ]

  /** The time points of 2010 to 2019, one year per row. */
  const Time2010s: seq<seq<real>> := [
    [21615.0, 21645.0, 21675.0, 21705.0, 21735.0, 21765.0, 21795.0, 21825.0, 21855.0, 21885.0, 21915.0, 21945.0],
    [21975.0, 22005.0, 22035.0, 22065.0, 22095.0, 22125.0, 22155.0, 22185.0, 22215.0, 22245.0, 22275.0, 22305.0],
    [22335.0, 22365.0, 22395.0, 22425.0, 22455.0, 22485.0, 22515.0, 22545.0, 22575.0, 22605.0, 22635.0, 22665.0],
    [22695.0, 22725.0, 22755.0, 22785.0, 22815.0, 22845.0, 22875.0, 22905.0, 22935.0, 22965.0, 22995.0, 23025.0],
    [23055.0, 23085.0, 23115.0, 23145.0, 23175.0, 23205.0, 23235.0, 23265.0, 23295.0, 23325.0, 23355.0, 23385.0],
    [23415.0, 23445.0, 23475.0, 23505.0, 23535.0, 23565.0, 23595.0, 23625.0, 23655.0, 23685.0, 23715.0, 23745.0],
    [23775.0, 23805.0, 23835.0, 23865.0, 23895.0, 23925.0, 23955.0, 23985.0, 24015.0, 24045.0, 24075.0, 24105.0],
    [24135.0, 24165.0, 24195.0, 24225.0, 24255.0, 24285.0, 24315.0, 24345.0, 24375.0, 24405.0, 24435.0, 24465.0],
    [24495.0, 24525.0, 24555.0, 24585.0, 24615.0, 24645.0, 24675.0, 24705.0, 24735.0, 24765.0, 24795.0, 24825.0],
    [24855.0, 24885.0, 24915.0, 24945.0, 24975.0, 25005.0, 25035.0, 25065.0, 25095.0, 25125.0, 25155.0, 25185.0]
  ]

  /** The time points of 2020. */
  const Time2020: seq<seq<real>> := [
    [25215.0, 25245.0, 25275.0, 25305.0, 25335.0, 25365.0, 25395.0, 25425.0, 25455.0, 25485.0, 25515.0, 25545.0]
  ]

  /** The forecast_reference_time points of 1950 to 1959, one year per row. */
  const Frt1950s: seq<seq<real>> := [
    [15.0, 45.0, 75.0, 105.0, 135.0, 165.0, 195.0, 225.0, 255.0, 285.0, 315.0, 345.0],
    [375.0, 405.0, 435.0, 465.0, 495.0, 525.0, 555.0, 585.0, 615.0, 645.0, 675.0, 705.0],
    [735.0, 765.0, 795.0, 825.0, 855.0, 885.0, 915.0, 945.0, 975.0, 1005.0, 1035.0, 1065.0],
    [1095.0, 1125.0, 1155.0, 1185.0, 1215.0, 1245.0, 1275.0, 1305.0, 1335.0, 1365.0, 1395.0, 1425.0],
    [1455.0, 1485.0, 1515.0, 1545.0, 1575.0, 1605.0, 1635.0, 1665.0, 1695.0, 1725.0, 1755.0, 1785.0],
    [1815.0, 1845.0, 1875.0, 1905.0, 1935.0, 1965.0, 1995.0, 2025.0, 2055.0, 2085.0, 2115.0, 2145.0],
    [2175.0, 2205.0, 2235.0, 2265.0, 2295.0, 2325.0, 2355.0, 2385.0, 2415.0, 2445.0, 2475.0, 2505.0],
    [2535.0, 2565.0, 2595.0, 2625.0, 2655.0, 2685.0, 2715.0, 2745.0, 2775.0, 2805.0, 2835.0, 2865.0],
    [2895.0, 2925.0, 2955.0, 2985.0, 3015.0, 3045.0, 3075.0, 3105.0, 3135.0, 3165.0, 3195.0, 3225.0],
    [3255.0, 3285.0, 3315.0, 3345.0, 3375.0, 3405.0, 3435.0, 3465.0, 3495.0, 3525.0, 3555.0, 3585.0]
  ]

  /** The forecast_reference_time points of 1960 to 1969, one year per row. */
  const Frt1960s: seq<seq<real>> := [
    [3615.0, 3645.0, 3675.0, 3705.0, 3735.0, 3765.0, 3795.0, 3825.0, 3855.0, 3885.0, 3915.0, 3945.0],
    [3975.0, 4005.0, 4035.0, 4065.0, 4095.0, 4125.0, 4155.0, 4185.0, 4215.0, 4245.0, 4275.0, 4305.0],
    [4335.0, 4365.0, 4395.0, 4425.0, 4455.0, 4485.0, 4515.0, 4545.0, 4575.0, 4605.0, 4635.0, 4665.0],
    [4695.0, 4725.0, 4755.0, 4785.0, 4815.0, 4845.0, 4875.0, 4905.0, 4935.0, 4965.0, 4995.0, 5025.0],
    [5055.0, 5085.0, 5115.0, 5145.0, 5175.0, 5205.0, 5235.0, 5265.0, 5295.0, 5325.0, 5355.0, 5385.0],
    [5415.0, 5445.0, 5475.0, 5505.0, 5535.0, 5565.0, 5595.0, 5625.0, 5655.0, 5685.0, 5715.0, 5745.0],
    [5775.0, 5805.0, 5835.0, 5865.0, 5895.0, 5925.0, 5955.0, 5985.0, 6015.0, 6045.0, 6075.0, 6105.0],
    [6135.0, 6165.0, 6195.0, 6225.0, 6255.0, 6285.0, 6315.0, 6345.0, 6375.0, 6405.0, 6435.0, 6465.0],
    [6495.0, 6525.0, 6555.0, 6585.0, 6615.0, 6645.0, 6675.0, 6705.0, 6735.0, 6765.0, 6795.0, 6825.0],
    [6855.0, 6885.0, 6915.0, 6945.0, 6975.0, 7005.0, 7035.0, 7065.0, 7095.0, 7125.0, 7155.0, 7185.0]
  ]

  /** The forecast_reference_time points of 1970 to 1979, one year per row. */
  const Frt1970s: seq<seq<real>> := [
    [7215.0, 7245.0, 7275.0, 7305.0, 7335.0, 7365.0, 7395.0, 7425.0, 7455.0, 7485.0, 7515.0, 7545.0],
    [7575.0, 7605.0, 7635.0, 7665.0, 7695.0, 7725.0, 7755.0, 7785.0, 7815.0, 7845.0, 7875.0, 7905.0],
    [7935.0, 7965.0, 7995.0, 8025.0, 8055.0, 8085.0, 8115.0, 8145.0, 8175.0, 8205.0, 8235.0, 8265.0],
    [8295.0, 8325.0, 8355.0, 8385.0, 8415.0, 8445.0, 8475.0, 8505.0, 8535.0, 8565.0, 8595.0, 8625.0],
    [8655.0, 8685.0, 8715.0, 8745.0, 8775.0, 8805.0, 8835.0, 8865.0, 8895.0, 8925.0, 8955.0, 8985.0],
    [9015.0, 9045.0, 9075.0, 9105.0, 9135.0, 9165.0, 9195.0, 9225.0, 9255.0, 9285.0, 9315.0, 9345.0],
    [9375.0, 9405.0, 9435.0, 9465.0, 9495.0, 9525.0, 9555.0, 9585.0, 9615.0, 9645.0, 9675.0, 9705.0],
    [9735.0, 9765.0, 9795.0, 9825.0, 9855.0, 9885.0, 9915.0, 9945.0, 9975.0, 10005.0, 10035.0, 10065.0],
    [10095.0, 10125.0, 10155.0, 10185.0, 10215.0, 10245.0, 10275.0, 10305.0, 10335.0, 10365.0, 10395.0, 10425.0],
    [10455.0, 10485.0, 10515.0, 10545.0, 10575.0, 10605.0, 10635.0, 10665.0, 10695.0, 10725.0, 10755.0, 10785.0]
  ]

  /** The forecast_reference_time points of 1980 to 1989, one year per row. */
  const Frt1980s: seq<seq<real>> := [
    [10815.0, 10845.0, 10875.0, 10905.0, 10935.0, 10965.0, 10995.0, 11025.0, 11055.0, 11085.0, 11115.0, 11145.0],
    [11175.0, 11205.0, 11235.0, 11265.0, 11295.0, 11325.0, 11355.0, 11385.0, 11415.0, 11445.0, 11475.0, 11505.0],
    [11535.0, 11565.0, 11595.0, 11625.0, 11655.0, 11685.0, 11715.0, 11745.0, 11775.0, 11805.0, 11835.0, 11865.0],
    [11895.0, 11925.0, 11955.0, 11985.0, 12015.0, 12045.0, 12075.0, 12105.0, 12135.0, 12165.0, 12195.0, 12225.0],
    [12255.0, 12285.0, 12315.0, 12345.0, 12375.0, 12405.0, 12435.0, 12465.0, 12495.0, 12525.0, 12555.0, 12585.0],
    [12615.0, 12645.0, 12675.0, 12705.0, 12735.0, 12765.0, 12795.0, 12825.0, 12855.0, 12885.0, 12915.0, 12945.0],
    [12975.0, 13005.0, 13035.0, 13065.0, 13095.0, 13125.0, 13155.0, 13185.0, 13215.0, 13245.0, 13275.0, 13305.0],
    [13335.0, 13365.0, 13395.0, 13425.0, 13455.0, 13485.0, 13515.0, 13545.0, 13575.0, 13605.0, 13635.0, 13665.0],
    [13695.0, 13725.0, 13755.0, 13785.0, 13815.0, 13845.0, 13875.0, 13905.0, 13935.0, 13965.0, 13995.0, 14025.0],
    [14055.0, 14085.0, 14115.0, 14145.0, 14175.0, 14205.0, 14235.0, 14265.0, 14295.0, 14325.0, 14355.0, 14385.0]
  ]

  /** The forecast_reference_time points of 1990 to 1999, one year per row. */
  const Frt1990s: seq<seq<real>> := [
    [14415.0, 14445.0, 14475.0, 14505.0, 14535.0, 14565.0, 14595.0, 14625.0, 14655.0, 14685.0, 14715.0, 14745.0],
    [14775.0, 14805.0, 14835.0, 14865.0, 14895.0, 14925.0, 14955.0, 14985.0, 15015.0, 15045.0, 15075.0, 15105.0],
    [15135.0, 15165.0, 15195.0, 15225.0, 15255.0, 15285.0, 15315.0, 15345.0, 15375.0, 15405.0, 15435.0, 15465.0],
    [15495.0, 15525.0, 15555.0, 15585.0, 15615.0, 15645.0, 15675.0, 15705.0, 15735.0, 15765.0, 15795.0, 15825.0],
    [15855.0, 15885.0, 15915.0, 15945.0, 15975.0, 16005.0, 16035.0, 16065.0, 16095.0, 16125.0, 16155.0, 16185.0],
    [16215.0, 16245.0, 16275.0, 16305.0, 16335.0, 16365.0, 16395.0, 16425.0, 16455.0, 16485.0, 16515.0, 16545.0],
    [16575.0, 16605.0, 16635.0, 16665.0, 16695.0, 16725.0, 16755.0, 16785.0, 16815.0, 16845.0, 16875.0, 16905.0],
    [16935.0, 16965.0, 16995.0, 17025.0, 17055.0, 17085.0, 17115.0, 17145.0, 17175.0, 17205.0, 17235.0, 17265.0],
    [17295.0, 17325.0, 17355.0, 17385.0, 17415.0, 17445.0, 17475.0, 17505.0, 17535.0, 17565.0, 17595.0, 17625.0],
    [17655.0, 17685.0, 17715.0, 17745.0, 17775.0, 17805.0, 17835.0, 17865.0, 17895.0, 17925.0, 17955.0, 17985.0]
  ]

  /** The forecast_reference_time points of 2000 to 2009, one year per row. */
  const Frt2000s: seq<seq<real>> := [
    [18015.0, 18045.0, 18075.0, 18105.0, 18135.0, 18165.0, 18195.0, 18225.0, 18255.0, 18285.0, 18315.0, 18345.0],
    [18375.0, 18405.0, 18435.0, 18465.0, 18495.0, 18525.0, 18555.0, 18585.0, 18615.0, 18645.0, 18675.0, 18705.0],
    [18735.0, 18765.0, 18795.0, 18825.0, 18855.0, 18885.0, 18915.0, 18945.0, 18975.0, 19005.0, 19035.0, 19065.0],
    [19095.0, 19125.0, 19155.0, 19185.0, 19215.0, 19245.0, 19275.0, 19305.0, 19335.0, 19365.0, 19395.0, 19425.0],
    [19455.0, 19485.0, 19515.0, 19545.0, 19575.0, 19605.0, 19635.0, 19665.0, 19695.0, 19725.0, 19755.0, 19785.0],
    [19815.0, 19845.0, 19875.0, 19905.0, 19935.0, 19965.0, 19995.0, 20025.0, 20055.0, 20085.0, 20115.0, 20145.0],
    [20175.0, 20205.0, 20235.0, 20265.0, 20295.0, 20325.0, 20355.0, 20385.0, 20415.0, 20445.0, 20475.0, 20505.0],
    [20535.0, 20565.0, 20595.0, 20625.0, 20655.0, 20685.0, 20715.0, 20745.0, 20775.0, 20805.0, 20835.0, 20865.0],
    [20895.0, 20925.0, 20955.0, 20985.0, 21015.0, 21045.0, 21075.0, 21105.0, 21135.0, 21165.0, 21195.0, 21225.0],
    [21255.0, 21285.0, 21315.0, 21345.0, 21375.0, 21405.0, 21435.0, 21465.0, 21495.0, 21525.0, 21555.0, 21585.0]
  ]

  /** The forecast_reference_time points of 2010 to 2019, one year per row. */
  const Frt2010s: seq<seq<real>> := [
    [21615.0, 21645.0, 21675.0, 21705.0, 21735.0, 21765.0, 21795.0, 21825.0, 21855.0, 21885.0, 21915.0, 21945.0],
    [21975.0, 22005.0, 22035.0, 22065.0, 22095.0, 22125.0, 22155.0, 22185.0, 22215.0, 22245.0, 22275.0, 22305.0],
    [22335.0, 22365.0, 22395.0, 22425.0, 22455.0, 22485.0, 22515.0, 22545.0, 22575.0, 22605.0, 22635.0, 22665.0],
    [22695.0, 22725.0, 22755.0, 22785.0, 22815.0, 22845.0, 22875.0, 22905.0, 22935.0, 22965.0, 22995.0, 23025.0],
    [23055.0, 23085.0, 23115.0, 23145.0, 23175.0, 23205.0, 23235.0, 23265.0, 23295.0, 23325.0, 23355.0, 23385.0],
    [23415.0, 23445.0, 23475.0, 23505.0, 23535.0, 23565.0, 23595.0, 23625.0, 23655.0, 23685.0, 23715.0, 23745.0],
    [23775.0, 23805.0, 23835.0, 23865.0, 23895.0, 23925.0, 23955.0, 23985.0, 24015.0, 24045.0, 24075.0, 24105.0],
    [24135.0, 24165.0, 24195.0, 24225.0, 24255.0, 24285.0, 24315.0, 24345.0, 24375.0, 24405.0, 24435.0, 24465.0],
    [24495.0, 24525.0, 24555.0, 24585.0, 24615.0, 24645.0, 24675.0, 24705.0, 24735.0, 24765.0, 24795.0, 24825.0],
    [24855.0, 24885.0, 24915.0, 24945.0, 24975.0, 25005.0, 25035.0, 25065.0, 25095.0, 25125.0, 25155.0, 25185.0]
  ]

  /** The forecast_reference_time points of 2020. */
  const Frt2020: seq<seq<real>> := [
    [25215.0, 25245.0, 25275.0, 25305.0, 25335.0, 25365.0, 25395.0, 25425.0, 25455.0, 25485.0, 25515.0, 25545.0]
  ]

  /** The time table as the script writes it, January 1950 to December 2020. */
  const TimeRows: seq<seq<real>> := Blocks([Time1950s, Time1960s, Time1970s, Time1980s, Time1990s, Time2000s, Time2010s, Time2020])

  const TimePoints: seq<real> := Concat(TimeRows)

  /** The forecast_reference_time table, written out a second time. */
  const FrtRows: seq<seq<real>> := Blocks([Frt1950s, Frt1960s, Frt1970s, Frt1980s, Frt1990s, Frt2000s, Frt2010s, Frt2020])

  const FrtPoints: seq<real> := Concat(FrtRows)

  /** Units of both tables: days since 1950-01-01 00:00:00, 360_day calendar. */
  const TimeUnits: Units := DaysSince(1950, Day360)

  // Each block of rows holds the mid-month points of its years.

  lemma Time1950sAreYears()
    ensures |Time1950s| == 10 && Day360RowsFrom(Time1950s, 0)
  {
    Day360Decade(Time1950s, 0);
  }

  lemma Time1960sAreYears()
    ensures |Time1960s| == 10 && Day360RowsFrom(Time1960s, 10)
  {
    Day360Decade(Time1960s, 10);
  }

  lemma Time1970sAreYears()
    ensures |Time1970s| == 10 && Day360RowsFrom(Time1970s, 20)
  {
    Day360Decade(Time1970s, 20);
  }

  lemma Time1980sAreYears()
    ensures |Time1980s| == 10 && Day360RowsFrom(Time1980s, 30)
  {
    Day360Decade(Time1980s, 30);
  }

  lemma Time1990sAreYears()
    ensures |Time1990s| == 10 && Day360RowsFrom(Time1990s, 40)
  {
    Day360Decade(Time1990s, 40);
  }

  lemma Time2000sAreYears()
    ensures |Time2000s| == 10 && Day360RowsFrom(Time2000s, 50)
  {
    Day360Decade(Time2000s, 50);
  }

  lemma Time2010sAreYears()
    ensures |Time2010s| == 10 && Day360RowsFrom(Time2010s, 60)
  {
    Day360Decade(Time2010s, 60);
  }

  lemma Time2020AreYears()
    ensures |Time2020| == 1 && Day360RowsFrom(Time2020, 70)
  {
  }

  lemma Frt1950sAreYears()
    ensures |Frt1950s| == 10 && Day360RowsFrom(Frt1950s, 0)
  {
    Day360Decade(Frt1950s, 0);
  }

  lemma Frt1960sAreYears()
    ensures |Frt1960s| == 10 && Day360RowsFrom(Frt1960s, 10)
  {
    Day360Decade(Frt1960s, 10);
  }

  lemma Frt1970sAreYears()
    ensures |Frt1970s| == 10 && Day360RowsFrom(Frt1970s, 20)
  {
    Day360Decade(Frt1970s, 20);
  }

  lemma Frt1980sAreYears()
    ensures |Frt1980s| == 10 && Day360RowsFrom(Frt1980s, 30)
  {
    Day360Decade(Frt1980s, 30);
  }

  lemma Frt1990sAreYears()
    ensures |Frt1990s| == 10 && Day360RowsFrom(Frt1990s, 40)
  {
    Day360Decade(Frt1990s, 40);
  }

  lemma Frt2000sAreYears()
    ensures |Frt2000s| == 10 && Day360RowsFrom(Frt2000s, 50)
  {
    Day360Decade(Frt2000s, 50);
  }

  lemma Frt2010sAreYears()
    ensures |Frt2010s| == 10 && Day360RowsFrom(Frt2010s, 60)
  {
    Day360Decade(Frt2010s, 60);
  }

  lemma Frt2020AreYears()
    ensures |Frt2020| == 1 && Day360RowsFrom(Frt2020, 70)
  {
  }

  /** The rows of the time table are the years 1950 to 2020. */
  lemma TimeRowsAreYears()
    ensures |TimeRows| == 71 && Day360RowsFrom(TimeRows, 0)
  {
    Time1950sAreYears();
    Time1960sAreYears();
    Time1970sAreYears();
    Time1980sAreYears();
    Time1990sAreYears();
    Time2000sAreYears();
    Time2010sAreYears();
    Time2020AreYears();
    var blocks := [Time1950s, Time1960s, Time1970s, Time1980s, Time1990s, Time2000s, Time2010s, Time2020];
    forall i | 0 <= i < |blocks|
      ensures Day360RowsFrom(blocks[i], 10 * i) && (i < |blocks| - 1 ==> |blocks[i]| == 10)
    {
      if i == 0 {} else if i == 1 {} else if i == 2 {} else if i == 3 {} else if i == 4 {} else if i == 5 {} else if i == 6 {} else {}
    }
    Day360Blocks(blocks, 0);
  }

  /** Each time point is the 360_day mid-month since 1950-01-01, one per month of the table. */
  lemma TimeIsMidMonths()
    ensures |TimePoints| == 852
    ensures TimePoints == MidMonths(Day360, 1950, 852)
  {
    TimeRowsAreYears();
    Day360Table(TimeRows, 1950);
    assert FullRows(TimeRows);
    ConcatLength(TimeRows);
    MonthlyAxisIsGenerated(TimePoints, Day360, 1950);
  }

  /** The rows of the forecast_reference_time table are the same years. */
  lemma FrtRowsAreYears()
    ensures |FrtRows| == 71 && Day360RowsFrom(FrtRows, 0)
  {
    Frt1950sAreYears();
    Frt1960sAreYears();
    Frt1970sAreYears();
    Frt1980sAreYears();
    Frt1990sAreYears();
    Frt2000sAreYears();
    Frt2010sAreYears();
    Frt2020AreYears();
    var blocks := [Frt1950s, Frt1960s, Frt1970s, Frt1980s, Frt1990s, Frt2000s, Frt2010s, Frt2020];
    forall i | 0 <= i < |blocks|
      ensures Day360RowsFrom(blocks[i], 10 * i) && (i < |blocks| - 1 ==> |blocks[i]| == 10)
    {
      if i == 0 {} else if i == 1 {} else if i == 2 {} else if i == 3 {} else if i == 4 {} else if i == 5 {} else if i == 6 {} else {}
    }
    Day360Blocks(blocks, 0);
  }

  /** The forecast_reference_time table holds the same mid-months. */
  lemma FrtIsMidMonths()
    ensures |FrtPoints| == 852
    ensures FrtPoints == MidMonths(Day360, 1950, 852)
  {
    FrtRowsAreYears();
    Day360Table(FrtRows, 1950);
    assert FullRows(FrtRows);
    ConcatLength(FrtRows);
    MonthlyAxisIsGenerated(FrtPoints, Day360, 1950);
  }

  /** The forecast_reference_time table equals the time table, entry for entry. */
  lemma FrtEqualsTime()
    ensures FrtPoints == TimePoints
  {
    TimeIsMidMonths();
    FrtIsMidMonths();
  }

  /** Number of months in the tables. */
  const MonthCount: nat := 852

  /** The 852 360_day mid-months since 1950-01-01: the points both tables hold. */
  function Months(): (s: seq<real>)
    ensures |s| == 852 && IsMonthlyAxis(s, Day360, 1950)
    ensures forall i, j :: 0 <= i < j < |s| ==> s[i] < s[j]
    ensures StrictlyMonotonic(s)
  {
    MonthlyAxisIncreases(MidMonths(Day360, 1950, MonthCount), Day360, 1950);
    MidMonths(Day360, 1950, MonthCount)
  }

  /** The time table is the monthly axis. */
  lemma TimeIsMonths()
    ensures TimePoints == Months()
  {
    TimeIsMidMonths();
  }

  /**
   * Point k is 30k + 15, the middle of 360_day month k: the axis runs from 15 to
   * 25545, rising by exactly 30 days a month.
   */
  lemma MonthsFacts()
    ensures forall k :: 0 <= k < |Months()| ==> Months()[k] == (30 * k + 15) as real
    ensures Months()[0] == 15.0 && Months()[|Months()| - 1] == 25545.0
    ensures forall k :: 0 <= k < |Months()| - 1 ==> Months()[k + 1] - Months()[k] == 30.0
  {
    Day360AxisFacts(Months(), 1950);
  }

  /** guess_bounds gives month k of the forecast_reference_time the bounds (30k, 30k + 30), its month boundaries. */
  lemma FrtBounds()
    ensures forall k :: 0 <= k < |Months()| ==> GuessedBounds(Months())[k] == Bounds((30 * k) as real, (30 * k + 30) as real)
  {
    Day360GuessedBounds(Months(), 1950);
  }

  const SourceFile: string := "combined_sources_n-butane_1950-2020_v4.nc"
  const TitleText: string := "Time-varying monthly surface emissions of n-butane from 1950 to 2020."
  const ReferenceText: string := "Granier et al., Clim. Change, 2011; Lamarque et al., Atmos. Chem. Phys., 2010; Helmig et al., Atmos. Environ., 2014."

  /** The attributes the script assigns in lines 83 to 97, before its history entry; `created` is the creation date it writes. */
  function Before(created: string): map<Key, Value>
  {
    map[
      VerticalScaling := Text("surface"), TracerName := Text("n-C4H10"), EmissionType := Text("1"),
      UpdateType := Text("1"), UpdateFreqInHours := Text("120"), UmVersion := Text("10.6"),
      Source := Text(SourceFile), Title := Text(TitleText), FileVersion := Text("v4"),
      FileCreationDate := Text(created), Grid := Text(N96eGrid)
    ]
  }

  /** The attributes it assigns after the history entry. */
  function After(): map<Key, Value>
  {
    map[
      Institution := Text(Cambridge), Reference := Text(ReferenceText)
    ]
  }

  /** Every attribute the script assigns with `attributes[key] = value`. */
  function Assigned(created: string): map<Key, Value>
  {
    map[
      VerticalScaling := Text("surface"), TracerName := Text("n-C4H10"), EmissionType := Text("1"),
      UpdateType := Text("1"), UpdateFreqInHours := Text("120"), UmVersion := Text("10.6"),
      Source := Text(SourceFile), Title := Text(TitleText), FileVersion := Text("v4"),
      FileCreationDate := Text(created), Grid := Text(N96eGrid), Institution := Text(Cambridge),
      Reference := Text(ReferenceText)
    ]
  }

  /** The assignments are those before the history entry and those after it; neither touches the history or a deleted key. */
  lemma AssignedSplits(created: string)
    ensures Before(created) + After() == Assigned(created)
    ensures History !in Before(created) && History !in After()
    ensures Before(created).Keys !! Deleted && After().Keys !! Deleted
  {
  }

  /** The loaded attributes the script deletes; each must be present. */
  const Deleted: set<Key> := {LoadedCreationDate, Description}

  /** No assigned key is the history, a deleted key or a restricted one. */
  lemma AssignedKeys(created: string)
    ensures Disjoint(Assigned(created), Deleted)
    ensures Assigned(created).Keys !! RestrictedKeys
  {
  }

  /** The attributes written on the emission variable rather than on the file. */
  const LocalKeys: seq<Key> := [VerticalScaling, MissingValue, UmStashSource, TracerName]

  /**
   * What the cube must offer for the coordinate statements to succeed:
   * a time dimension of 852 months leading a (time, latitude,
   * longitude) field, latitude bounds (copied from the grid by the regridding), and
   * no vertical or forecast coordinates yet.
   */
  predicate CoordinatesReady(time: Coord, bounded: set<Dim>, shape: seq<nat>, level: Option<Coord>, frt: Option<Coord>, fp: Option<Coord>)
  {
    |time.points| == 852 &&
    Y in bounded &&
    |shape| == 3 && shape[0] == 852 && level.None? && frt.None? && fp.None?
  }

  /**
   * What the cube must offer for the script to reach its end: a string history,
   * every attribute it deletes, and what the coordinate statements need.
   */
  predicate Ready(attributes: map<Key, Value>, time: Coord, bounded: set<Dim>, shape: seq<nat>, level: Option<Coord>, frt: Option<Coord>, fp: Option<Coord>)
  {
    History in attributes && attributes[History].Text? && Deleted <= attributes.Keys &&
    CoordinatesReady(time, bounded, shape, level, frt, fp)
  }

  /** The attributes the script leaves on a cube loaded with `loaded`. */
  function Attributes(loaded: map<Key, Value>, created: string, stamp: string, script: string): map<Key, Value>
    requires History in loaded && loaded[History].Text?
  {
    Assemble(loaded, Assigned(created), Some((stamp, script)), Deleted)
  }

  /**
   * A surface emission with emission and update types both '1'.  The script never
   * assigns um_stash_source, so that local key reaches the emission variable exactly
   * when the loaded file carried it.
   * The new history starts with the time stamp and ends with the old history, and the
   * keys are the loaded ones and the assigned ones, less the deleted ones, plus missing_value.
   */
  lemma AttributeValues(loaded: map<Key, Value>, created: string, stamp: string, script: string)
    requires History in loaded && loaded[History].Text?
    ensures var m := Attributes(loaded, created, stamp, script);
      VerticalScaling in m && m[VerticalScaling] == Text("surface") &&
      EmissionType in m && UpdateType in m && m[UpdateType] == m[EmissionType] == Text("1") &&
      (UmStashSource in LocalAttributes(m, LocalKeys) <==> UmStashSource in loaded) &&
      {VerticalScaling, MissingValue, TracerName} <= LocalAttributes(m, LocalKeys).Keys &&
      History in m && m[History].Text? && m[History].s[..|stamp|] == stamp && EndsWith(m[History].s, loaded[History].s) &&
      m.Keys == loaded.Keys + Assigned(created).Keys - Deleted + {MissingValue}
  {
    AssignedKeys(created);
    AssembleValues(loaded, Assigned(created), Some((stamp, script)), Deleted);
    AssembleKeys(loaded, Assigned(created), Some((stamp, script)), Deleted);
    var m := Attributes(loaded, created, stamp, script);
    assert UmStashSource in m <==> UmStashSource in loaded by {
      assert m.Keys == loaded.Keys + Assigned(created).Keys - Deleted + {MissingValue};
      assert UmStashSource !in Assigned(created).Keys && UmStashSource !in Deleted;
    }
    assert UmStashSource in LocalKeys;
  }

  /** The dictionary after lines 83 to 97, one assignment after another. */
  function Labelled(loaded: map<Key, Value>, created: string): map<Key, Value>
  {
    loaded
      [VerticalScaling := Text("surface")][TracerName := Text("n-C4H10")][EmissionType := Text("1")]
      [UpdateType := Text("1")][UpdateFreqInHours := Text("120")][UmVersion := Text("10.6")]
      [Source := Text(SourceFile)][Title := Text(TitleText)][FileVersion := Text("v4")]
      [FileCreationDate := Text(created)][Grid := Text(N96eGrid)]
  }

  /** Made one by one, the assignments of lines 83 to 97 overwrite the loaded attributes with `Before`. */
  lemma LabelledMerges(loaded: map<Key, Value>, created: string)
    ensures Labelled(loaded, created) == loaded + Before(created)
  {
  }

  /** Lines 83 to 97, the assignments before the history entry. */
  method Label(cube: Cube, created: string)
    modifies cube`attributes
    ensures cube.attributes == Labelled(old(cube.attributes), created)
  {
    cube.SetAttribute(VerticalScaling, Text("surface"));
    cube.SetAttribute(TracerName, Text("n-C4H10"));
    cube.SetAttribute(EmissionType, Text("1"));
    cube.SetAttribute(UpdateType, Text("1"));
    cube.SetAttribute(UpdateFreqInHours, Text("120"));
    cube.SetAttribute(UmVersion, Text("10.6"));
    cube.SetAttribute(Source, Text(SourceFile));
    cube.SetAttribute(Title, Text(TitleText));
    cube.SetAttribute(FileVersion, Text("v4"));
    cube.SetAttribute(FileCreationDate, Text(created));
    cube.SetAttribute(Grid, Text(N96eGrid));
  }

  /** Line 98 and the assignments after it: the history dated, then overwritten by `After`. */
  method Credit(cube: Cube, stamp: string, script: string) returns (r: Outcome)
    modifies cube`attributes
    ensures r == if History !in old(cube.attributes) then Fail(KeyError(History))
                 else if !old(cube.attributes)[History].Text? then Fail(TypeError)
                 else Pass
    ensures r.Pass? ==> cube.attributes == old(cube.attributes)[History := Text(PrependedHistory(stamp, script, old(cube.attributes)[History].s))] + After()
  {
    r := cube.PrependHistory(stamp, script);
    if r.Fail? { return; }
    cube.SetAttribute(Institution, Text(Cambridge));
    cube.SetAttribute(Reference, Text(ReferenceText));
  }

  /** Lines 102 to 103: the `del` statements, each a KeyError when its key is missing. */
  method Prune(cube: Cube) returns (r: Outcome)
    modifies cube`attributes
    ensures r == if LoadedCreationDate !in old(cube.attributes) then Fail(KeyError(LoadedCreationDate))
                 else if Description !in old(cube.attributes) then Fail(KeyError(Description))
                 else Pass
    ensures r.Pass? ==> cube.attributes == old(cube.attributes) - Deleted
  {
    r := cube.DeleteAttribute(LoadedCreationDate);
    if r.Fail? { return; }
    r := cube.DeleteAttribute(Description);
  }

  /**
   * Lines 83 to 103 of the script: the assignments, the history entry and the
   * deletions, which fail on a missing or non-string history or a missing deleted key.
   */
  method WriteAttributes(cube: Cube, created: string, stamp: string, script: string) returns (r: Outcome)
    modifies cube`attributes
    ensures r == if History !in old(cube.attributes) then Fail(KeyError(History))
                 else if !old(cube.attributes)[History].Text? then Fail(TypeError)
                 else if LoadedCreationDate !in old(cube.attributes) then Fail(KeyError(LoadedCreationDate))
                 else if Description !in old(cube.attributes) then Fail(KeyError(Description))
                 else Pass
    ensures r.Pass? ==> cube.attributes == Edited(old(cube.attributes), Assigned(created), Some((stamp, script)), Deleted)
  {
    AssignedSplits(created);
    Label(cube, created);
    LabelledMerges(old(cube.attributes), created);
    r := Credit(cube, stamp, script);
    if r.Fail? { return; }
    r := Prune(cube);
    if r.Pass? {
      EditedAroundHistory(old(cube.attributes), Before(created), After(), stamp, script, Deleted);
    }
  }

  /** Lines 107 to 190: the time coordinate named, given its units and the table of points. */
  method WriteTime(cube: Cube) returns (r: Outcome)
    modifies cube`time
    ensures r == if |old(cube.time.points)| == 852 then Pass else Fail(ValueError)
    ensures cube.time == old(cube.time).(name := "time", units := TimeUnits, points := if r.Pass? then Months() else old(cube.time.points))
  {
    TimeIsMonths();
    r := SetMonthlyTime(cube, TimeUnits, TimePoints);
  }

  /** Lines 211 to 300: forecast_reference_time from its own table, its bounds guessed, then forecast_period. */
  method WriteForecastAxes(cube: Cube) returns (r: Outcome)
    modifies cube`frt, cube`fp
    ensures r == if old(cube.frt).None? && old(cube.fp).None? && |cube.shape| > 0 && cube.shape[0] == 852 then Pass else Fail(ValueError)
    ensures r.Pass? ==> cube.frt == Some(ForecastReferenceTime(TimeUnits, Months()).(bounds := GuessedBounds(Months())))
    ensures r.Pass? ==> cube.fp == Some(ForecastPeriod())
  {
    FrtEqualsTime();
    TimeIsMonths();
    r := AddForecastAxes(cube, TimeUnits, FrtPoints);
  }

  /**
   * Lines 107 to 300: the time block, the z block, the 64-bit casts, of which
   * only the latitude bounds cast can fail, and the forecast block.
   */
  method WriteCoordinates(cube: Cube) returns (r: Outcome)
    requires cube.Valid()
    modifies cube`time, cube`level, cube`data, cube`shape, cube`dims, cube`frt, cube`fp
    ensures cube.Valid()
    ensures r.Pass? <==> CoordinatesReady(old(cube.time), old(cube.bounded), old(cube.shape), old(cube.level), old(cube.frt), old(cube.fp))
    ensures r.Pass? ==> cube.time == old(cube.time).(name := "time", units := TimeUnits, points := Months())
    ensures r.Pass? ==> cube.level == Some(SurfaceLevel()) && old(cube.data).Axis? && cube.data == InjectLevel(old(cube.data))
    ensures r.Pass? ==> cube.shape == [old(cube.shape)[0], 1, old(cube.shape)[1], old(cube.shape)[2]]
    ensures r.Pass? ==> cube.dims == [old(cube.dims)[0], Z, old(cube.dims)[1], old(cube.dims)[2]]
    ensures r.Pass? ==> forall t: nat, y: nat, x: nat :: IsIndex(old(cube.data), [t, y, x]) ==>
      IsIndex(cube.data, [t, 0, y, x]) && Get(cube.data, [t, 0, y, x]) == Get(old(cube.data), [t, y, x])
    ensures r.Pass? ==> cube.frt == Some(ForecastReferenceTime(TimeUnits, Months()).(bounds := GuessedBounds(Months())))
    ensures r.Pass? ==> cube.fp == Some(ForecastPeriod())
  {
    r := WriteTime(cube);
    if r.Fail? { return; }
    r := InjectSurfaceLevel(cube);
    if r.Fail? { return; }
    r := cube.CastLatitudeBounds();
    if r.Fail? { return; }
    r := WriteForecastAxes(cube);
  }

  /**
   * The script from the regridded cube to the cube it saves: `created` is the creation date, `stamp` the time stamp of the history entry and `script` the script's path.
   */
  method Run(cube: Cube, created: string, stamp: string, script: string) returns (r: Outcome)
    requires cube.Valid()
    modifies cube
    ensures cube.Valid()
    ensures r.Pass? <==> Ready(old(cube.attributes), old(cube.time), old(cube.bounded), old(cube.shape), old(cube.level), old(cube.frt), old(cube.fp))
    ensures History !in old(cube.attributes) ==> r == Fail(KeyError(History))
    ensures r.Pass? ==> cube.attributes == Attributes(old(cube.attributes), created, stamp, script)
    ensures r.Pass? ==> cube.time == old(cube.time).(name := "time", units := TimeUnits, points := Months())
    ensures r.Pass? ==> cube.level == Some(SurfaceLevel()) && old(cube.data).Axis? && cube.data == InjectLevel(old(cube.data))
    ensures r.Pass? ==> cube.shape == [old(cube.shape)[0], 1, old(cube.shape)[1], old(cube.shape)[2]]
    ensures cube.bounded == old(cube.bounded)
    ensures r.Pass? ==> cube.dims == [old(cube.dims)[0], Z, old(cube.dims)[1], old(cube.dims)[2]]
    ensures r.Pass? ==> forall t: nat, y: nat, x: nat :: IsIndex(old(cube.data), [t, y, x]) ==>
      IsIndex(cube.data, [t, 0, y, x]) && Get(cube.data, [t, 0, y, x]) == Get(old(cube.data), [t, y, x])
    ensures r.Pass? ==> cube.frt == Some(ForecastReferenceTime(TimeUnits, Months()).(bounds := GuessedBounds(Months())))
    ensures r.Pass? ==> cube.fp == Some(ForecastPeriod())
    ensures r.Pass? ==> cube.cellMethods == [MeanOverTime] && cube.fillValue == Some(FillValue)
    ensures r.Pass? ==> MissingValue in cube.attributes && cube.attributes[MissingValue] == Number(cube.fillValue.value)
  {
    r := WriteAttributes(cube, created, stamp, script);
    if r.Fail? { return; }
    r := WriteCoordinates(cube);
    if r.Fail? { return; }
    FinishForSaving(cube);
  }
}

# openhospital-data generator core, modelled in Dafny

openhospital-data fills an Open Hospital database with fake but plausible
records: persons, companies, hospital visits, IBANs and credit cards, with the
identity numbers of several countries. Every record is drawn from one seeded
random source and a data catalog read from YAML files. This project models the
generator's core and proves what its code promises.

- **Random source** (`Random`): the seeded generator and BaseProducer's draws
  (`randomBetween`, `randomInt`, `trueOrFalse`, `randomElement`, numerify,
  letterify, bothify) are a class over a fixed sequence of draws with a
  position that each draw advances. `randomBetween(n, n)` consumes nothing,
  and a reversed range is an error.
- **Entity assemblers**:
  - `PersonProviders.DefaultPersonProvider`, `Companies.CompanyProvider`,
    `HospitalVisitProviders.DefaultHospitalVisitProvider` and
    `Iban.IbanProvider` are classes with the Java drafts' fields.
  - Their setters assign one field each, and the `*Properties` overrides are
    draft-to-draft functions.
  - `get()` runs the same ordered `generateX` steps as the source. Each step
    keeps a preset field and fills an empty one.
  - The proved rules: age and date of birth reconcile; profession and marital
    status are gated on age; the parents-together flag is derived from the
    parents' status; the ward follows age and sex; discharge follows the
    percentage draw.
- **Checksums and layouts**:
  - the Luhn digit shared by credit cards, Swedish personnummer and Swedish
    organisation numbers;
  - the PESEL weighted checksum with century-shifted months;
  - the Polish identity-card and passport letter-weighted schemes;
  - base-26 letter numbering (`AlphaNumber`, on an array as in the source);
  - the fixed layouts of US SSN and EIN, Chinese ID and VAT numbers, and
    Georgian, German and Spanish numbers.

  Every validator is proved to accept exactly what its definition describes,
  and every generator is proved to produce numbers its validator accepts.
- **Data catalog** (`Catalog`): the case-insensitive map, which lower-cases
  keys on write and on read and converts nested maps recursively. It covers
  `appendData`, which replaces whole values, and the typed lookups, which
  fail on a missing key or a wrong type.
- **Locale registry and helpers**: language to generator module with the EN
  fallback, country lookup by language, the IBAN country table, date-range
  arithmetic on a proleptic Gregorian calendar, address and e-mail
  formatting, text truncation and sentence shaping, and URLs.

The clock is a parameter (`now`, `today`), and so are the hospital's
reference lists and the outputs of providers the assemblers call but that
are not part of this model.

Java exceptions are `Failure`/`Fail` values of `Wrappers.Error`, and
`null` is `None`. Java's truncating `/` and `%` and its `int` → `String`
conversion are written out in `Chars`.

Behaviour of the code that the model reproduces as written:

- `setMobileTelephoneNumber` assigns `telephoneNumber`. The mobile number
  field is only ever filled by its generator.
- The maternal-disease pick in `generateDisease` and `generateDiagnosis` is
  always overwritten by the group draw that follows. No maternal disease is
  ever generated (`HospitalVisits.GeneratedInSomeGroup`).
- The IBAN country table maps the language SV to the country code `SV`.
- ZhVAT `getChar` writes character codes 49 to 58 for the draws 0 to 9.
  The organisation code therefore contains `:` and never `0`
  (`ZhVat.VatCharLeavesAlphabet`).
- PESEL encodes the years 1701 to 1799 with the month offset of the 1800s
  (`Pesel.EighteenthCenturyShift`).
- The Polish identity card's letter prefix needs a fourth letter once the
  drawn value reaches 26^3. That happens for some draws in 2390 and for every
  draw from 2391 on. The array keeps only three letters, and the fourth is
  overwritten by the check digit (`PlIdCard.FourLettersIn2390`,
  `PlIdCard.FourLettersFrom2391`).
- The Polish passport validator throws a NullPointerException on lower-case
  series letters (`PlPassport.LowerSeriesThrows`), and it
  accepts a letter in the check position.
- The SW national identification number provider returns no number when it
  draws its own birth date, because that date always falls within the last
  15 years (`SwNin.DrawnBirthDateTooYoung`).

## Model

| member | source | states |
|---|---|---|
| Addresses.ZhAddress | src/main/java/org/isf/generator/producer/person/locale/zh/ZhAddress.java:33-35 | each argument lands in its own field although the base constructor takes them in another order |
| Addresses.ZhLine1Shape | src/main/java/org/isf/generator/producer/person/locale/zh/ZhAddress.java:38-44 | line 1 opens with city, 市, street, street number, 号, and ends in 房 exactly when there is an apartment number |
| Addresses.ToStringPostalCode | src/main/java/org/isf/generator/producer/person/locale/AbstractAddress.java:77-79 | the text after the line separator is line 2 and ends with the postal code, which can be read back |
| Addresses.GetStreetNumber | src/main/java/org/isf/generator/producer/person/AbstractAddressProvider.java:57-59 | the street number is the decimal form of a number between 1 and 199 |
| Addresses.GetApartmentNumber | src/main/java/org/isf/generator/producer/person/AbstractAddressProvider.java:61-63 | the apartment number is empty or the decimal form of a number between 1 and 350 |
| Addresses.NumberReadsBack | src/main/java/org/isf/generator/producer/person/AbstractAddressProvider.java:57-63 | a generated number is all digits and parses back to the number drawn |
| Addresses.ZhGetApartmentNumber | src/main/java/org/isf/generator/producer/person/locale/zh/ZhAddressProvider.java:44-51 | the Chinese apartment number is empty or floor, "0" and room with the floor at most 38 and the room at most 8 |
| Addresses.ZhApartmentReadsBack | src/main/java/org/isf/generator/producer/person/locale/zh/ZhAddressProvider.java:44-51 | floor and room can be read back from a Chinese apartment number |
| Addresses.GetCity | src/main/java/org/isf/generator/producer/person/AbstractAddressProvider.java:44-46 | the city is an entry of the catalog list "city"; a missing list is an error |
| Addresses.GetStreet | src/main/java/org/isf/generator/producer/person/AbstractAddressProvider.java:53-55 | the street is an entry of the catalog list "street"; a missing list is an error |
| Addresses.GetPostalCode | src/main/java/org/isf/generator/producer/person/AbstractAddressProvider.java:48-51 | the postal code is a catalog format with every '#' replaced by a digit |
| Addresses.ZhGet | src/main/java/org/isf/generator/producer/person/locale/zh/ZhAddressProvider.java:39-41 | a Chinese address holds a street number of 1 to 199, catalog street and city, a Chinese apartment number and a numerified catalog postal code; any missing list is an error |
| AlphaNumber.Letter | src/main/java/org/isf/generator/producer/util/AlphaNumberSystem.java:32-33 | digit d of the alphabet is an upper-case letter |
| AlphaNumber.LetterValue | src/main/java/org/isf/generator/producer/util/AlphaNumberSystem.java:32-33 | every upper-case letter is the alphabet digit of exactly one value below 26 |
| AlphaNumber.AlphabetSpelledOut | src/main/java/org/isf/generator/producer/util/AlphaNumberSystem.java:32-33 | the alphabet is A to Z in order |
| AlphaNumber.GenerateAlphabetList | src/main/java/org/isf/generator/producer/util/AlphaNumberSystem.java:35-41 | the list holds 26 one-letter strings, the i-th being the i-th letter |
| AlphaNumber.Letters | src/main/java/org/isf/generator/producer/util/AlphaNumberSystem.java:54-57 | the digits of a positive number are upper-case letters, at least one |
| AlphaNumber.AlphaString | src/main/java/org/isf/generator/producer/util/AlphaNumberSystem.java:51-59 | the string returned is non-empty and upper-case |
| AlphaNumber.ConvertToString | src/main/java/org/isf/generator/producer/util/AlphaNumberSystem.java:46-60 | the right-to-left buffer fill returns the number's letters, "A" for zero, and fails with an index error when the letters overrun the buffer |
| AlphaNumber.ConvertedCases | src/main/java/org/isf/generator/producer/util/AlphaNumberSystem.java:48-59 | the three outcomes once the buffer exists: "A" for zero, the letters when they fit, an index error when they do not |
| AlphaNumber.DecodeLetters | src/main/java/org/isf/generator/producer/util/AlphaNumberSystem.java:54-57 | reading the letters back as base digits gives the number |
| AlphaNumber.DecodeAlphaString | src/main/java/org/isf/generator/producer/util/AlphaNumberSystem.java:46-60 | reading the result back gives the number converted |
| AlphaNumber.DecodeLeadingA | src/main/java/org/isf/generator/producer/util/AlphaNumberSystem.java:32-33 | leading 'A's are leading zeros and do not change the value read back |
| AlphaNumber.LettersFitBuffer | src/main/java/org/isf/generator/producer/util/AlphaNumberSystem.java:48 | in base 26 the letters always fit the numberToConvert / 26 + 1 buffer |
| AlphaNumber.Base26Converts | src/main/java/org/isf/generator/producer/util/AlphaNumberSystem.java:46-60 | in base 26 every non-negative number converts without error |
| AlphaNumber.LettersLength | src/main/java/org/isf/generator/producer/util/AlphaNumberSystem.java:54-57 | a number below base^k has at most k letters and one at least base^k has more |
| AlphaNumber.AlphaStringLength | src/main/java/org/isf/generator/producer/util/AlphaNumberSystem.java:46-60 | in base 26 the result has at most k letters exactly when the number is below 26^k |
| BirthWindows.LatestBirth | src/main/java/org/isf/generator/producer/person/DefaultPersonProvider.java:243 | maxDate is today's month in the year age years back, the day clamped |
| BirthWindows.EarliestBirthAsWritten | src/main/java/org/isf/generator/producer/person/DefaultPersonProvider.java:244 | minDate as written is the day after maxDate shifted back one more year |
| BirthWindows.EarliestBirth | src/main/java/org/isf/generator/producer/person/DefaultPersonProvider.java:243-244 | the corrected minDate is the day after today shifted back age + 1 years |
| BirthWindows.BirthWindowNonEmpty | src/main/java/org/isf/generator/producer/person/DefaultPersonProvider.java:243-245 | both windows hold at least maxDate, so the date draw never sees an empty range |
| BirthWindows.AgeBetweenShifts | src/main/java/org/isf/generator/producer/person/DefaultPersonProvider.java:229 | a date after today less age + 1 years and not after today less age years is exactly age whole years before today |
| BirthWindows.AgeOfBirthInWindow | src/main/java/org/isf/generator/producer/person/DefaultPersonProvider.java:226-246 | every date of the corrected window gives back the age when generateAge measures it |
| BirthWindows.WindowsAgreeOffLeapDay | src/main/java/org/isf/generator/producer/person/DefaultPersonProvider.java:243-244 | off February 29 the as-written and corrected windows coincide |
| BirthWindows.LeapDayShifts | src/main/java/org/isf/generator/producer/person/DefaultPersonProvider.java:243-244 | 2024-02-29 shifted back 3 years and then 1 more is 2020-02-28 |
| BirthWindows.EarliestBirthAsWrittenOverreaches | src/main/java/org/isf/generator/producer/person/DefaultPersonProvider.java:243-245 | on 2024-02-29 with age 3 the as-written window admits 2020-02-29, a date 4 whole years back |
| Calendar.DaysInMonth | src/main/java/org/isf/generator/producer/DateProducer.java:68-70 | a month of the proleptic Gregorian calendar has 28 to 31 days |
| Calendar.OfEpochDay | src/main/java/org/isf/generator/producer/DateProducer.java:70 | LocalDate.ofEpochDay gives a valid date whose epoch day is the one asked for |
| Calendar.EpochDayMonotone | src/main/java/org/isf/generator/producer/DateProducer.java:69 | epoch days are ordered exactly as the dates are, and equal exactly for equal dates |
| Calendar.OfEpochDayInverse | src/main/java/org/isf/generator/producer/DateProducer.java:69-70 | ofEpochDay undoes toEpochDay |
| Calendar.OfEpochDayBetween | src/main/java/org/isf/generator/producer/DateProducer.java:68-71 | a date made from an epoch day between two dates' epoch days lies between the two dates |
| Calendar.OfEpochMilli | src/main/java/org/isf/generator/producer/DateProducer.java:75 | LocalDateTime.ofInstant of an epoch millisecond is a valid date-time at that millisecond |
| Calendar.OfEpochMilliInverse | src/main/java/org/isf/generator/producer/DateProducer.java:74-75 | ofInstant undoes toEpochMilli |
| Calendar.EpochMilliMonotone | src/main/java/org/isf/generator/producer/DateProducer.java:74 | epoch milliseconds are ordered exactly as the date-times are |
| Calendar.DateNotAfter | src/main/java/org/isf/generator/producer/DateProducer.java:73-76 | a date-time not later than another lies on a date not later than the other's date |
| Calendar.PlusYears | src/main/java/org/isf/generator/producer/person/DefaultPersonProvider.java:243-244 | minusYears keeps month and day, clamping February 29 to the 28th in a common year |
| Calendar.PlusMonths | src/main/java/org/isf/generator/producer/payment/CreditCardProvider.java:37 | plusMonths shifts the month count by n and never raises the day |
| Calendar.PlusDays | src/main/java/org/isf/generator/producer/person/DefaultPersonProvider.java:244 | plusDays moves the epoch day by exactly n |
| Calendar.TimePlusYears | src/main/java/org/isf/generator/producer/DateProducer.java:59 | minusYears on a date-time shifts the date and keeps the time of day |
| Calendar.TimePlusMonths | src/main/java/org/isf/generator/producer/DateProducer.java:95 | plus(Period.ofMonths) shifts the date and keeps the time of day |
| Calendar.TimePlusDays | src/main/java/org/isf/generator/producer/hospitalvisit/DefaultHospitalVisitProvider.java:214-215 | plusDays and minusDays move the epoch millisecond by whole days |
| Calendar.TimeMinusSeconds | src/main/java/org/isf/generator/producer/DateProducer.java:58 | minusSeconds moves the epoch millisecond back by whole seconds |
| Calendar.AtMidnight | src/main/java/org/isf/generator/producer/hospitalvisit/DefaultHospitalVisitProvider.java:216 | the time of day is cut to midnight on the same date |
| Calendar.TwoDigitYear | src/main/java/org/isf/generator/producer/payment/CreditCard.java:58 | the "uu" pattern prints two digits that read back as the year of the century |
| Calendar.TwoDigits | src/main/java/org/isf/generator/producer/person/locale/sv/SvNationalIdentificationNumberProvider.java:97-98 | "MM", "dd" and "%02d" print two digits that read back as the number |
| Catalog.StoreLookup | src/main/java/org/isf/generator/data/MapBasedDataMaster.java:131-156 | after putAll a lookup finds the converted value of the last entry whose key matches ignoring case, whole and unmerged; other keys keep their value |
| Catalog.StoreNormalized | src/main/java/org/isf/generator/data/MapBasedDataMaster.java:135-156 | putAll keeps every key lower-case and every stored nested map case-insensitive |
| Catalog.ConvertNormalized | src/main/java/org/isf/generator/data/MapBasedDataMaster.java:139-149 | a loaded value becomes case-insensitive maps at every depth |
| Catalog.LookupIgnoresCase | src/main/java/org/isf/generator/data/MapBasedDataMaster.java:158-162 | a key spelt in upper or lower case finds the same value |
| Catalog.GetData | src/main/java/org/isf/generator/data/MapBasedDataMaster.java:100-109 | getData succeeds exactly when the key holds a non-null value of the requested kind, returns that value, and a missing or null value fails with "No such key: " and the key |
| Catalog.GetStringList | src/main/java/org/isf/generator/data/MapBasedDataMaster.java:62-64 | getStringList succeeds exactly when the key holds a list, and returns that list |
| Catalog.GetString | src/main/java/org/isf/generator/data/MapBasedDataMaster.java:84-86 | getString succeeds exactly when the key holds a string, and returns that string |
| Catalog.GetLanguage | src/main/java/org/isf/generator/data/MapBasedDataMaster.java:94-96 | getLanguage fails exactly when getString does; a recognised code is the one named by the upper-cased string |
| Catalog.LanguageIgnoresCase | src/main/java/org/isf/generator/data/MapBasedDataMaster.java:94-96 | the language string is recognised in any capitalisation |
| Catalog.TypedList | src/main/java/org/isf/generator/data/MapBasedDataMaster.java:68-71 | the list drawn from is the one stored under the type inside the map stored under the data key |
| Catalog.AsString | src/main/java/org/isf/generator/data/MapBasedDataMaster.java:106-108 | the cast to String succeeds exactly on a string and returns it; a null item is a NullPointerException here (see Left out) |
| Catalog.DataMaster.constructor | src/main/java/org/isf/generator/data/MapBasedDataMaster.java:46-51 | a new data master shares the random source and starts with no data |
| Catalog.DataMaster.Put | src/main/java/org/isf/generator/data/MapBasedDataMaster.java:139-149 | put stores the converted value under the lower-cased key and changes nothing else |
| Catalog.DataMaster.AppendData | src/main/java/org/isf/generator/data/MapBasedDataMaster.java:131-133 | appendData puts every entry in order and keeps the store normalised |
| Catalog.DataMaster.GetValuesOfType | src/main/java/org/isf/generator/data/MapBasedDataMaster.java:68-74 | getValuesOfType fails as getData does, fails on an empty list, and otherwise returns an element of the typed list |
| Catalog.DataMaster.GetRandomValue | src/main/java/org/isf/generator/data/MapBasedDataMaster.java:88-91 | getRandomValue fails as getStringList does, fails on an empty list, and otherwise returns an element of the list |
| Chars.DigitChar | src/main/java/org/isf/generator/producer/person/locale/pl/PlNationalIdentificationNumberProvider.java:101 | the character written for a digit reads back as that digit |
| Chars.Lower | src/main/java/org/isf/generator/data/MapBasedDataMaster.java:140 | toLowerCase keeps the length and lower-cases each character |
| Chars.Upper | src/main/java/org/isf/generator/data/MapBasedDataMaster.java:95 | toUpperCase keeps the length and upper-cases each character |
| Chars.JavaRem | src/main/java/org/isf/generator/producer/person/locale/pl/PlPassportNumberProvider.java:80 | Java's % takes the sign of the dividend and completes truncating division |
| Chars.NatToString | src/main/java/org/isf/generator/producer/person/AbstractAddressProvider.java:58 | String.valueOf of a natural number is a non-empty string of digits |
| Chars.IntToString | src/main/java/org/isf/generator/producer/person/AbstractAddressProvider.java:58 | String.valueOf of an int is the digits for non-negatives and starts with '-' for negatives |
| Chars.LeftPad | src/main/java/org/isf/generator/producer/person/locale/pl/PlNationalIdentityCardNumberProvider.java:127 | leftPad never truncates and pads a short string to exactly the size |
| Chars.LeftPadSpec | src/main/java/org/isf/generator/producer/person/locale/pl/PlNationalIdentityCardNumberProvider.java:135 | the padded string ends with the original and starts with pad characters only |
| Chars.ZeroPad | src/main/java/org/isf/generator/producer/person/locale/pl/PlNationalIdentificationNumberProvider.java:101 | "%0nd" prints at least n digits |
| Chars.ZeroPadSpec | src/main/java/org/isf/generator/producer/person/locale/pl/PlNationalIdentificationNumberProvider.java:101 | "%0nd" reads back as the number and is exactly n wide when the number fits |
| Chars.ReplaceChar | src/main/java/org/isf/generator/producer/person/EmailProvider.java:53-59 | replacing a character removes it when the replacement does not hold it, and changes nothing when it is absent |
| Chars.ReplaceCharLength | src/main/java/org/isf/generator/producer/person/EmailProvider.java:53-59 | each occurrence grows the string by the replacement's length less one |
| Chars.ReplaceCharKeepsAbsent | src/main/java/org/isf/generator/producer/util/TextUtils.java:43 | replacing never introduces a character found in neither the string nor the replacement |
| Chars.RemoveChar | src/main/java/org/isf/generator/producer/net/NetworkProducer.java:47 | removing a character leaves none of it and never lengthens the string |
| Chars.RemoveCharLength | src/main/java/org/isf/generator/producer/person/locale/sv/SvNationalIdentificationNumberProvider.java:128 | removing a character shortens the string by its number of occurrences |
| Chars.RemoveCharAbsent | src/main/java/org/isf/generator/producer/person/locale/sv/SvNationalIdentificationNumberProvider.java:128 | removing an absent character changes nothing |
| Chars.RemoveCharConcat | src/main/java/org/isf/generator/producer/person/CompanyEmailProvider.java:45 | removal distributes over concatenation |
| Chars.ParseNatToString | src/main/java/org/isf/generator/producer/person/AbstractAddressProvider.java:58 | the decimal form reads back as the number |
| Chars.NatToStringInjective | src/main/java/org/isf/generator/producer/person/AbstractAddressProvider.java:58 | different numbers have different decimal forms |
| Chars.NatToStringLength | src/main/java/org/isf/generator/producer/person/locale/en/EnNationalIdentityCardNumberProvider.java:82 | a number below 10^k has at most k digits |
| Chars.NatToStringAtLeast | src/main/java/org/isf/generator/producer/person/locale/en/EnNationalIdentityCardNumberProvider.java:82 | a number at least 10^k has more than k digits |
| Chars.ParseLeadingZeros | src/main/java/org/isf/generator/producer/person/locale/en/EnNationalIdentityCardNumberProvider.java:82-94 | leading zeros from padding do not change the value read back |
| Chars.ParseDigitsBound | src/main/java/org/isf/generator/producer/person/locale/en/EnNationalIdentityCardNumberProvider.java:82-94 | k digits read back as a number below 10^k |
| Chars.LowerIdempotent | src/main/java/org/isf/generator/data/MapBasedDataMaster.java:140 | lower-casing twice is lower-casing once |
| Chars.LowerOfUpper | src/main/java/org/isf/generator/data/MapBasedDataMaster.java:161 | lower-casing an upper-cased key gives the lower-cased key |
| Chars.UpperFromLower | src/main/java/org/isf/generator/data/MapBasedDataMaster.java:95 | strings equal ignoring case upper-case alike |
| Companies.UrlDomain | src/main/java/org/isf/generator/producer/company/Company.java:42-44 | the URL is "http://www." followed by the domain, so equal URLs mean equal domains |
| Companies.EmailAddressSplits | src/main/java/org/isf/generator/producer/company/Company.java:46-48 | the e-mail address splits at its only '@' back into the local part and the domain |
| Companies.DeleteWhitespace | src/main/java/org/isf/generator/producer/company/DefaultCompanyProvider.java:95 | deleteWhitespace never lengthens the string |
| Companies.DeleteWhitespaceShape | src/main/java/org/isf/generator/producer/company/DefaultCompanyProvider.java:95 | deleteWhitespace leaves only non-whitespace characters of the input |
| Companies.StripStart | src/main/java/org/isf/generator/producer/company/DefaultCompanyProvider.java:95 | stripping from the start leaves a suffix that does not begin with the character |
| Companies.StripEnd | src/main/java/org/isf/generator/producer/company/DefaultCompanyProvider.java:95 | stripping from the end leaves a prefix that does not end with the character |
| Companies.Strip | src/main/java/org/isf/generator/producer/company/DefaultCompanyProvider.java:95 | StringUtils.strip leaves a string that neither begins nor ends with the character |
| Companies.PreparedHostShape | src/main/java/org/isf/generator/producer/company/DefaultCompanyProvider.java:95 | the prepared host holds no '/', no whitespace and no upper-case letter |
| Companies.PreparedHostEdges | src/main/java/org/isf/generator/producer/company/DefaultCompanyProvider.java:95 | a name without '/' gives a host that neither begins nor ends with '.' |
| Companies.PreparedHostTrailingDot | src/main/java/org/isf/generator/producer/company/DefaultCompanyProvider.java:95 | because the dots are stripped before '/' is removed, "a./" still gives a host ending in '.' |
| Companies.Hex4 | src/main/java/org/isf/generator/producer/company/DefaultCompanyProvider.java:97 | a \uXXXX escape holds four hexadecimal digits and no backslash |
| Companies.EscapePlain | src/main/java/org/isf/generator/producer/company/DefaultCompanyProvider.java:97 | escapeJava leaves printable ASCII text without quotes or backslashes unchanged |
| Companies.DropUnicodeMarksPlain | src/main/java/org/isf/generator/producer/company/DefaultCompanyProvider.java:97 | removing "\u" changes nothing in text without a backslash |
| Companies.EscapeWide | src/main/java/org/isf/generator/producer/company/DefaultCompanyProvider.java:97 | a character above 0x7f is escaped as "\u" and its four hexadecimal digits |
| Companies.WideTextToHex | src/main/java/org/isf/generator/producer/company/DefaultCompanyProvider.java:97 | escaping text of non-ASCII characters and removing the "\u" marks leaves their hexadecimal digits |
| Companies.CutEscapedBound | src/main/java/org/isf/generator/producer/company/DefaultCompanyProvider.java:96-101 | the escaped host is cut to a prefix, and a result above 10 characters is no longer than the host's UTF-16 length: only a host that escaping lengthened beyond 10 is cut |
| Chars.Utf16Length | src/main/java/org/isf/generator/producer/company/DefaultCompanyProvider.java:96-98 | host.length() counts UTF-16 units: at least one and at most two per character |
| Chars.Utf16LengthBmp | src/main/java/org/isf/generator/producer/company/DefaultCompanyProvider.java:96-98 | text within the Basic Multilingual Plane has exactly one UTF-16 unit per character |
| Companies.HostOfPlainName | src/main/java/org/isf/generator/producer/company/DefaultCompanyProvider.java:95-101 | a name that escapes to itself keeps its prepared host uncut |
| Companies.HostOfWideName | src/main/java/org/isf/generator/producer/company/DefaultCompanyProvider.java:95-101 | a prepared host of three or more non-ASCII characters becomes the first 10 hexadecimal digits of its characters |
| Companies.PreparedWideName | src/main/java/org/isf/generator/producer/company/DefaultCompanyProvider.java:95 | a non-ASCII name without whitespace is its own prepared host |
| Companies.HostOfWideText | src/main/java/org/isf/generator/producer/company/DefaultCompanyProvider.java:95-101 | a non-ASCII name of three or more characters without whitespace gives the first 10 hexadecimal digits of its characters |
| Companies.ZhTestHost | src/test/java/org/isf/generator/TestGeneratorZH.java:43 | the Chinese company name 后海金融 gives the host "540E6D7791" |
| Companies.DomainParts | src/main/java/org/isf/generator/producer/company/DefaultCompanyProvider.java:103 | the domain is the host, a dot and the top-level domain, each recoverable |
| Companies.CompanyNameParts | src/main/java/org/isf/generator/producer/company/DefaultCompanyProvider.java:75-78 | the company name starts with the drawn base and, exactly when a suffix was drawn, continues with a space and the suffix |
| Companies.OverrideIsolated | src/main/java/org/isf/generator/producer/company/CompanyProperties.java:33-71 | each override sets only its own field, and a second override of the same field replaces the first |
| Companies.CompanyProvider.constructor | src/main/java/org/isf/generator/producer/company/DefaultCompanyProvider.java:47-57 | the provider's fields are the overrides applied in order to an empty draft |
| Companies.CompanyProvider.Apply | src/main/java/org/isf/generator/producer/company/CompanyProperties.java:37-39 | applying an override changes the draft as the override function says |
| Companies.CompanyProvider.SetName | src/main/java/org/isf/generator/producer/company/DefaultCompanyProvider.java:122-125 | setName sets the name and nothing else |
| Companies.CompanyProvider.SetDomain | src/main/java/org/isf/generator/producer/company/DefaultCompanyProvider.java:127-130 | setDomain sets the domain and nothing else |
| Companies.CompanyProvider.SetEmail | src/main/java/org/isf/generator/producer/company/DefaultCompanyProvider.java:132-135 | setEmail sets the e-mail and nothing else |
| Companies.CompanyProvider.SetVatIdentificationNumber | src/main/java/org/isf/generator/producer/company/DefaultCompanyProvider.java:137-140 | setVatIdentificationNumber sets that number and nothing else |
| Companies.CompanyProvider.GenerateName | src/main/java/org/isf/generator/producer/company/DefaultCompanyProvider.java:70-79 | a preset name stays; otherwise the name is a catalog company name optionally followed by a space and a catalog suffix, and a missing list is an error |
| Companies.CompanyProvider.GenerateDomain | src/main/java/org/isf/generator/producer/company/DefaultCompanyProvider.java:89-104 | a preset domain stays; a missing name is a NullPointerException; otherwise the domain is the host made from the name, a dot and a catalog top-level domain |
| Companies.CompanyProvider.AppendTld | src/main/java/org/isf/generator/producer/company/DefaultCompanyProvider.java:103 | the domain becomes host, '.' and a catalog top-level domain, or stays when the list is missing |
| Companies.CompanyProvider.GenerateEmail | src/main/java/org/isf/generator/producer/company/DefaultCompanyProvider.java:106-112 | a preset e-mail stays; otherwise it is a catalog company e-mail |
| Companies.CompanyProvider.GenerateVatIdentificationNumber | src/main/java/org/isf/generator/producer/company/DefaultCompanyProvider.java:114-120 | a preset VAT number stays; otherwise it is the locale provider's number |
| Companies.CompanyProvider.Get | src/main/java/org/isf/generator/producer/company/DefaultCompanyProvider.java:59-68 | presets survive; a successful company holds the four fields, each generated field as its step promises |
| Countries.Declared | src/main/java/org/isf/generator/producer/person/Country.java:31-33 | the i-th declared country has ordinal i |
| Countries.Ordinal | src/main/java/org/isf/generator/producer/person/Country.java:31-33 | every country's ordinal is below the thirteen declared |
| Countries.DeclaredOrdinal | src/main/java/org/isf/generator/producer/person/Country.java:31-33 | values()[ordinal()] is the country itself |
| Countries.Code | src/main/java/org/isf/generator/producer/person/Country.java:45-47 | every ISO 3166 code has two letters |
| Countries.SpeakingFromMembers | src/main/java/org/isf/generator/producer/person/Country.java:49-51 | the filtered tail of values() holds exactly the countries from ordinal i on that speak the language |
| Countries.SpeakingFromOrdered | src/main/java/org/isf/generator/producer/person/Country.java:49-51 | the filtered tail keeps declaration order |
| Countries.FindCountryForLanguageSpec | src/main/java/org/isf/generator/producer/person/Country.java:49-51 | findCountryForLanguage returns exactly the countries whose languages contain the language, in declaration order |
| Countries.FindEnglish | src/main/java/org/isf/generator/producer/person/Country.java:31-33 | English is spoken in the United Kingdom, Australia, the USA and Canada, in that order |
| Countries.FindFrench | src/main/java/org/isf/generator/producer/person/Country.java:31-33 | French is spoken in Canada and France |
| Countries.FindSwahili | src/main/java/org/isf/generator/producer/person/Country.java:31-33 | Swahili is spoken in Uganda only |
| Countries.FindChinese | src/main/java/org/isf/generator/producer/person/Country.java:31-33 | Chinese is spoken in China only |
| Countries.FindNeverEmpty | src/main/java/org/isf/generator/producer/person/Country.java:31-33 | every language code has at least one country |
| CreditCards.ExpiryDateAsString | src/main/java/org/isf/generator/producer/payment/CreditCard.java:57-59 | the expiry string is two digits of month, '/', two digits of year of century, each read back |
| CreditCards.CompleteNumber | src/main/java/org/isf/generator/producer/payment/CreditCardProvider.java:70-83 | the loop appends the Java remainder of nine times the doubled-digit sum as the check digit |
| CreditCards.BodySumIsLuhnSum | src/main/java/org/isf/generator/producer/payment/CreditCardProvider.java:71-81 | the loop's sum, doubling even positions, is the Luhn sum of the number doubling every second digit from the right |
| CreditCards.CheckDigitComplement | src/main/java/org/isf/generator/producer/payment/CreditCardProvider.java:82 | sum * 9 % 10 is a single digit that brings the sum to a multiple of ten |
| CreditCards.CompleteNumberLuhn | src/main/java/org/isf/generator/producer/payment/CreditCardProvider.java:70-83 | the completed number keeps the body, adds one digit and passes the Luhn check when the body has odd length |
| CreditCards.PadPrefix | src/main/java/org/isf/generator/producer/payment/CreditCardProvider.java:62-66 | the mask is the prefix followed by '#' up to 15 characters, or the prefix alone when longer |
| CreditCards.PrefixText | src/main/java/org/isf/generator/producer/payment/CreditCardProvider.java:61-62 | String.valueOf of the drawn Integer prefix, "null" for a null entry, and a cast error for anything else |
| CreditCards.NumerifiedPrefix | src/main/java/org/isf/generator/producer/payment/CreditCardProvider.java:62-67 | numerifying the mask keeps the prefix and fills the rest with digits |
| CreditCards.ShortPrefixNumber | src/main/java/org/isf/generator/producer/payment/CreditCardProvider.java:60-83 | a prefix of at most 15 digits gives a 16-digit number that starts with the prefix and passes the Luhn check |
| CreditCards.NumberFromPrefix | src/main/java/org/isf/generator/producer/payment/CreditCardProvider.java:61-67 | a numeric or null prefix always gives a number; a short numeric prefix gives a 16-digit Luhn-valid number starting with it |
| CreditCards.GenerateNumber | src/main/java/org/isf/generator/producer/payment/CreditCardProvider.java:60-68 | with short Visa prefixes the number has 16 digits, passes the Luhn check and starts with a catalog prefix; a missing list is an error |
| CreditCards.Get | src/main/java/org/isf/generator/producer/payment/CreditCardProvider.java:52-58 | the card is a Visa with a three-digit CVV and an expiry between now and 36 months on; with short prefixes the number is 16 Luhn-valid digits |
| CreditCards.ValidityWindowNonEmpty | src/main/java/org/isf/generator/producer/payment/CreditCardProvider.java:56 | now plus 36 months is not before now, so the expiry draw has room |
| DateProducer.PlusPeriod | src/main/java/org/isf/generator/producer/DateProducer.java:95 | adding a period of months or years keeps the time of day and gives a valid date-time |
| DateProducer.PastWindowNonEmpty | src/main/java/org/isf/generator/producer/DateProducer.java:57-60 | the window from maxYearsEarlier years back to one second ago is non-empty exactly when maxYearsEarlier is at least 1 |
| DateProducer.FirstMomentOfYear | src/main/java/org/isf/generator/producer/DateProducer.java:89-91 | the first moment of a year is a valid date-time |
| DateProducer.LastMinuteOfYear | src/main/java/org/isf/generator/producer/DateProducer.java:85-87 | 23:59 on the last day of a year is a valid date-time |
| DateProducer.YearWindowNonEmpty | src/main/java/org/isf/generator/producer/DateProducer.java:78-83 | the window from the first moment of fromYear to the last minute of toYear is non-empty exactly when fromYear <= toYear |
| DateProducer.RandomDateBetweenDates | src/main/java/org/isf/generator/producer/DateProducer.java:68-71 | a date between from and to inclusive, or a range error when to is before from |
| DateProducer.RandomDateBetweenTimes | src/main/java/org/isf/generator/producer/DateProducer.java:73-76 | a date-time between from and to inclusive by epoch millisecond, or a range error when from is later |
| DateProducer.RandomDateInThePast | src/main/java/org/isf/generator/producer/DateProducer.java:55-61 | a negative argument is an IllegalArgumentException, zero an empty range, otherwise a date-time from maxYearsEarlier years back up to one second before now |
| DateProducer.RandomDateBetweenYearAndNow | src/main/java/org/isf/generator/producer/DateProducer.java:63-66 | a year after the current one fails, the current year is an empty range, an earlier year gives a date-time between it and now |
| DateProducer.RandomDateBetweenYears | src/main/java/org/isf/generator/producer/DateProducer.java:78-83 | fromYear > toYear is an IllegalArgumentException; otherwise a date-time within the two years |
| DateProducer.RandomDateBetweenNowAndFuturePeriod | src/main/java/org/isf/generator/producer/DateProducer.java:93-96 | a date-time between now and now plus the period, or a range error when the period is negative |
| DateProducer.RandomDateInTheFuture | src/main/java/org/isf/generator/producer/DateProducer.java:98-104 | a date-time between now and now plus the years, 100 by default; a negative count is a range error |
| DateProducer.FutureWindowNonEmpty | src/main/java/org/isf/generator/producer/DateProducer.java:98-100 | now plus n years is not before now exactly when n >= 0 |
| DeIds.TypedPatternIff | src/main/java/org/isf/generator/producer/person/locale/de/DeNationalIdentityCardNumberProvider.java:40 | the pattern one type letter then eight digits matches exactly a letter of the list followed by eight digits |
| DeIds.IdCardValidIff | src/main/java/org/isf/generator/producer/person/locale/de/DeNationalIdentityCardNumberProvider.java:54-56 | isValid accepts exactly one of L M N P R T V W X Y followed by eight digits |
| DeIds.PassportValidIff | src/main/java/org/isf/generator/producer/person/locale/de/DePassportNumberProvider.java:54-56 | isValid accepts exactly one of C F G H J K followed by eight digits |
| DeIds.VatValidIff | src/main/java/org/isf/generator/producer/company/locale/de/DeVATIdentificationNumberProvider.java:42-44 | isValid accepts exactly nine digits |
| DeIds.LetterEntry | src/main/java/org/isf/generator/producer/person/locale/de/DeNationalIdentityCardNumberProvider.java:38 | an entry of a one-letter list is a single letter of the list |
| DeIds.GetIdCard | src/main/java/org/isf/generator/producer/person/locale/de/DeNationalIdentityCardNumberProvider.java:49-52 | the number is a type letter followed by the eight random digits, and isValid accepts it |
| DeIds.GetPassport | src/main/java/org/isf/generator/producer/person/locale/de/DePassportNumberProvider.java:49-52 | the number is a passport type letter followed by the eight random digits, and isValid accepts it |
| DeIds.GetVat | src/main/java/org/isf/generator/producer/company/locale/de/DeVATIdentificationNumberProvider.java:37-40 | the VAT number is the nine random digits, and isValid accepts it |
| Emails.LocalPartHasNoSpaces | src/main/java/org/isf/generator/producer/person/EmailProvider.java:50-61 | whichever of the three variants is drawn, the local part holds no space |
| Emails.LocalPartDropsSpaces | src/main/java/org/isf/generator/producer/person/EmailProvider.java:52-54 | variants 1 and 3 delete the spaces of the names |
| Emails.LocalPartDotsSpaces | src/main/java/org/isf/generator/producer/person/EmailProvider.java:55-57 | variant 2 turns each space into a dot, keeping the length of first name, dot and last name |
| Emails.PersonalDomain | src/main/java/org/isf/generator/producer/person/EmailProvider.java:62 | after the local part comes '@' and the lower-cased catalog domain, with no further '@' |
| Emails.Get | src/main/java/org/isf/generator/producer/person/EmailProvider.java:48-64 | the address is built from a variant between 1 and 3 and a catalog domain, then cleaned of ß and ł; a missing domain list is an error |
| Emails.CompanyEmail | src/main/java/org/isf/generator/producer/person/CompanyEmailProvider.java:43-47 | the company e-mail holds no ß, ł or Ł |
| Emails.CompanyEmailShape | src/main/java/org/isf/generator/producer/person/CompanyEmailProvider.java:45 | lower-casing and turning spaces into dots leaves no space and keeps the length of first name, dot, last name, '@' and domain |
| EnEin.AreaDraw | src/main/java/org/isf/generator/producer/company/locale/en/EnVATIdentificationNumberProvider.java:79 | the area draw lies between 0 and 99 |
| EnEin.FillHyphen | src/main/java/org/isf/generator/producer/company/locale/en/EnVATIdentificationNumberProvider.java:86-88 | fillHyphen writes '-' at index 2 and nothing else |
| EnEin.FillAreaNumber | src/main/java/org/isf/generator/producer/company/locale/en/EnVATIdentificationNumberProvider.java:76-84 | the loop redraws until the area is not excluded, then writes it as two digits at the start and nothing else |
| EnEin.FillSerialNumber | src/main/java/org/isf/generator/producer/company/locale/en/EnVATIdentificationNumberProvider.java:70-74 | a serial of 1 to 9999 is written as seven digits from index 3 |
| EnEin.Get | src/main/java/org/isf/generator/producer/company/locale/en/EnVATIdentificationNumberProvider.java:57-68 | the EIN is the two-digit area, '-', and the serial padded to seven digits, so its serial part opens with "000" |
| EnEin.HyphenatedIff | src/main/java/org/isf/generator/producer/company/locale/en/EnVATIdentificationNumberProvider.java:43-47 | a string is area, '-' and serial exactly when it has length 10 with those parts at their indexes |
| EnEin.SerialLeadingZeros | src/main/java/org/isf/generator/producer/company/locale/en/EnVATIdentificationNumberProvider.java:71-72 | a serial up to 9999 padded to seven digits opens with "000" |
| EnEin.GeneratedLayout | src/main/java/org/isf/generator/producer/company/locale/en/EnVATIdentificationNumberProvider.java:57-68 | the generated EIN has the layout, and the area and serial read back from it |
| EnSsn.AreaDraw | src/main/java/org/isf/generator/producer/person/locale/en/EnNationalIdentityCardNumberProvider.java:80 | the area draw lies between 1 and 899 |
| EnSsn.HyphenatedIff | src/main/java/org/isf/generator/producer/person/locale/en/EnNationalIdentityCardNumberProvider.java:41-47 | a string is area, '-', group, '-', serial exactly when it has length 11 with those parts at their indexes |
| EnSsn.FieldWidths | src/main/java/org/isf/generator/producer/person/locale/en/EnNationalIdentityCardNumberProvider.java:82-94 | each padded field has exactly its width |
| EnSsn.FillHyphens | src/main/java/org/isf/generator/producer/person/locale/en/EnNationalIdentityCardNumberProvider.java:71-75 | fillHyphens writes '-' at indexes 3 and 6 and nothing else |
| EnSsn.FillAreaNumber | src/main/java/org/isf/generator/producer/person/locale/en/EnNationalIdentityCardNumberProvider.java:77-84 | the loop redraws while the area is 666, then writes it as three digits at the start and nothing else |
| EnSsn.FillGroupNumber | src/main/java/org/isf/generator/producer/person/locale/en/EnNationalIdentityCardNumberProvider.java:86-90 | a group of 1 to 99 is written as two digits at index 4 and nothing else changes |
| EnSsn.FillSerialNumber | src/main/java/org/isf/generator/producer/person/locale/en/EnNationalIdentityCardNumberProvider.java:92-96 | a serial of 1 to 9999 is written as four digits at index 7 |
| EnSsn.Get | src/main/java/org/isf/generator/producer/person/locale/en/EnNationalIdentityCardNumberProvider.java:56-69 | the SSN is area, group and serial in their fields with hyphens between, and never starts with "666" |
| EnSsn.SpelledFields | src/main/java/org/isf/generator/producer/person/locale/en/EnNationalIdentityCardNumberProvider.java:56-69 | each field of the SSN is the padded number drawn |
| EnSsn.AreaNot666 | src/main/java/org/isf/generator/producer/person/locale/en/EnNationalIdentityCardNumberProvider.java:81 | an area other than 666 never pads to "666" |
| EnSsn.GeneratedLayout | src/main/java/org/isf/generator/producer/person/locale/en/EnNationalIdentityCardNumberProvider.java:56-96 | the SSN has the layout, does not start with "666", and each number reads back from its field |
| EsIds.DniValidIff | src/main/java/org/isf/generator/producer/person/locale/es/EsNationalIdentityCardNumberProvider.java:34 | the DNI pattern accepts exactly eight digits, an optional '-' and one upper-case letter |
| EsIds.ControlClass | src/main/java/org/isf/generator/producer/company/locale/es/EsVATIdentificationNumberProvider.java:39 | the CIF control alternatives together accept exactly an upper-case letter or a digit |
| EsIds.CifValidIff | src/main/java/org/isf/generator/producer/company/locale/es/EsVATIdentificationNumberProvider.java:39 | the CIF pattern accepts exactly an upper-case letter, seven digits and an upper-case letter or digit |
| EsIds.GetDni | src/main/java/org/isf/generator/producer/person/locale/es/EsNationalIdentityCardNumberProvider.java:41-44 | the DNI is the eight random digits, '-' and the random letter upper-cased, and isValid accepts it |
| EsIds.GetCif | src/main/java/org/isf/generator/producer/company/locale/es/EsVATIdentificationNumberProvider.java:47-50 | the CIF is the upper-cased letter, the seven random digits and the upper-cased alphanumeric, and isValid accepts it |
| HospitalVisits.GroupInGenerated | src/main/java/org/isf/generator/producer/hospitalvisit/DefaultHospitalVisitProvider.java:168-177 | a disease picked from the group chosen by randomBetween(0, 2), whatever the number, is one of the generated diseases |
| HospitalVisits.GeneratedInSomeGroup | src/main/java/org/isf/generator/producer/hospitalvisit/DefaultHospitalVisitProvider.java:168-177 | every generated disease comes from the non-communicable, notifiable or infectious list; the maternal list adds none |
| HospitalVisits.WardRules | src/main/java/org/isf/generator/producer/hospitalvisit/DefaultHospitalVisitProvider.java:180-198 | with four distinct wards, exactly children up to 12 go to the children ward, older males to the male ward, females of 18 to 39 to maternity, other females to the female ward |
| HospitalVisits.WardOf | src/main/java/org/isf/generator/producer/hospitalvisit/DefaultHospitalVisitProvider.java:184-197 | a person without an age gives the NullPointerException of unboxing; otherwise the ward of their sex and age |
| HospitalVisits.MaternityOnlyForWomen | src/main/java/org/isf/generator/producer/hospitalvisit/DefaultHospitalVisitProvider.java:190-193 | the maternity ward receives only women aged 18 to 39 |
| HospitalVisits.AdmissionLeavesRoom | src/main/java/org/isf/generator/producer/hospitalvisit/DefaultHospitalVisitProvider.java:213-216 | an admission date drawn at least four days back leaves room for the discharge draw |
| HospitalVisits.DischargeAfterAdmission | src/main/java/org/isf/generator/producer/hospitalvisit/DefaultHospitalVisitProvider.java:219-231 | a discharge date lies on a later day than the admission and not after today |
| HospitalVisitProperties.OverriddenAllAppend | src/main/java/org/isf/generator/producer/hospitalvisit/DefaultHospitalVisitProvider.java:103-105 | applying two lists of overrides in turn is applying their concatenation |
| HospitalVisitProperties.OverrideTouchesTarget | src/main/java/org/isf/generator/producer/hospitalvisit/HospitalVisitProperties.java:38-106 | each override sets its own field to its argument and nothing else; withName and withPerson both set the person |
| HospitalVisitProperties.OverridesKeepGenerated | src/main/java/org/isf/generator/producer/hospitalvisit/HospitalVisitProperties.java:38-106 | no override reaches the admission type, the dates, the diagnosis, the discharge type or the two flags |
| HospitalVisitProperties.LastPercentageWins | src/main/java/org/isf/generator/producer/hospitalvisit/HospitalVisitProperties.java:88-96 | of several withDischargePercentage overrides the last one decides the percentage |
| HospitalVisitProviders.DrawnDiseaseGenerated | src/main/java/org/isf/generator/producer/hospitalvisit/DefaultHospitalVisitProvider.java:160-178 | a drawn disease is always one of the three groups' diseases, and with non-empty lists the draw succeeds |
| HospitalVisitProviders.DrawDisease | src/main/java/org/isf/generator/producer/hospitalvisit/DefaultHospitalVisitProvider.java:165-177 | a woman's coin toss picks a maternal disease that the group switch then overwrites; the disease comes from the group drawn between 0 and 2 |
| HospitalVisitProviders.DrawAdmissionDate | src/main/java/org/isf/generator/producer/hospitalvisit/DefaultHospitalVisitProvider.java:213-216 | days is drawn between 4 and 20, and the admission is midnight of a day between 2 * days - 1 and days days back |
| HospitalVisitProviders.DrawDischargeDate | src/main/java/org/isf/generator/producer/hospitalvisit/DefaultHospitalVisitProvider.java:230 | the draw succeeds exactly when admission plus a day is not after now, and then lands at midnight of a day after the admission and not after today |
| HospitalVisitProviders.Built | src/main/java/org/isf/generator/producer/hospitalvisit/HospitalVisit.java:47-60 | the visit carries each provider field into its own constructor slot |
| HospitalVisitProviders.DefaultHospitalVisitProvider.constructor | src/main/java/org/isf/generator/producer/hospitalvisit/DefaultHospitalVisitProvider.java:95-102 | a new provider starts with every field unset |
| HospitalVisitProviders.DefaultHospitalVisitProvider.Create | src/main/java/org/isf/generator/producer/hospitalvisit/DefaultHospitalVisitProvider.java:95-142 | the provider loads the hospital lists and wards and holds the overrides applied in order to an empty draft |
| HospitalVisitProviders.DefaultHospitalVisitProvider.Apply | src/main/java/org/isf/generator/producer/hospitalvisit/HospitalVisitProperties.java:38-106 | applying an override changes the fields as the override function says |
| HospitalVisitProviders.DefaultHospitalVisitProvider.Get | src/main/java/org/isf/generator/producer/hospitalvisit/DefaultHospitalVisitProvider.java:144-158 | presets survive; a built visit has flags 'N' and 'N', a generated disease, the ward for the person, a listed admission type, an admission 4 to 20 days back and, when discharged, a later discharge date, diagnosis and type; failures are null or range errors, and a person with an age and non-empty lists always succeeds |
| HospitalVisitProviders.DefaultHospitalVisitProvider.Generate | src/main/java/org/isf/generator/producer/hospitalvisit/DefaultHospitalVisitProvider.java:146-155 | the admission steps and then the discharge steps, with their joint guarantees |
| HospitalVisitProviders.DefaultHospitalVisitProvider.Admit | src/main/java/org/isf/generator/producer/hospitalvisit/DefaultHospitalVisitProvider.java:146-149 | disease, ward, admission type and admission date are kept or generated as their steps promise |
| HospitalVisitProviders.DefaultHospitalVisitProvider.Discharge | src/main/java/org/isf/generator/producer/hospitalvisit/DefaultHospitalVisitProvider.java:150-153 | discharge date, diagnosis and discharge type are generated only for a discharged visit |
| HospitalVisitProviders.DefaultHospitalVisitProvider.GenerateDisease | src/main/java/org/isf/generator/producer/hospitalvisit/DefaultHospitalVisitProvider.java:160-178 | a preset disease stays; a null person throws; otherwise the disease drawn from the group |
| HospitalVisitProviders.DefaultHospitalVisitProvider.GenerateWard | src/main/java/org/isf/generator/producer/hospitalvisit/DefaultHospitalVisitProvider.java:180-198 | a preset ward stays; a null person or age throws; otherwise the ward for the person's sex and age |
| HospitalVisitProviders.DefaultHospitalVisitProvider.GenerateAdmissionType | src/main/java/org/isf/generator/producer/hospitalvisit/DefaultHospitalVisitProvider.java:200-206 | a preset type stays; otherwise one from the list, and an empty list is an error |
| HospitalVisitProviders.DefaultHospitalVisitProvider.GenerateAdmissionDate | src/main/java/org/isf/generator/producer/hospitalvisit/DefaultHospitalVisitProvider.java:208-217 | a preset date stays; otherwise midnight of a day drawn inside the window of the drawn days |
| HospitalVisitProviders.DefaultHospitalVisitProvider.GenerateDischargeDate | src/main/java/org/isf/generator/producer/hospitalvisit/DefaultHospitalVisitProvider.java:219-231 | the visit is discharged exactly when a draw of 1 to 100 is at most the percentage, and a discharged visit gets a date after the admission day and not after today |
| HospitalVisitProviders.DefaultHospitalVisitProvider.GenerateDiagnosis | src/main/java/org/isf/generator/producer/hospitalvisit/DefaultHospitalVisitProvider.java:233-251 | only a discharged visit without a preset diagnosis draws one, exactly as a disease is drawn |
| HospitalVisitProviders.DefaultHospitalVisitProvider.GenerateDischargeType | src/main/java/org/isf/generator/producer/hospitalvisit/DefaultHospitalVisitProvider.java:253-259 | only a discharged visit without a preset type draws one from the list |
| HospitalVisitProviders.DefaultHospitalVisitProvider.SetDisease | src/main/java/org/isf/generator/producer/hospitalvisit/DefaultHospitalVisitProvider.java:261-264 | setDisease sets the disease and nothing else |
| HospitalVisitProviders.DefaultHospitalVisitProvider.SetWard | src/main/java/org/isf/generator/producer/hospitalvisit/DefaultHospitalVisitProvider.java:266-269 | setWard sets the ward and nothing else |
| HospitalVisitProviders.DefaultHospitalVisitProvider.SetAdmissionType | src/main/java/org/isf/generator/producer/hospitalvisit/DefaultHospitalVisitProvider.java:271-274 | setAdmissionType sets the admission type and nothing else |
| HospitalVisitProviders.DefaultHospitalVisitProvider.SetPatient | src/main/java/org/isf/generator/producer/hospitalvisit/DefaultHospitalVisitProvider.java:276-279 | setPatient sets the patient and nothing else |
| HospitalVisitProviders.DefaultHospitalVisitProvider.SetPerson | src/main/java/org/isf/generator/producer/hospitalvisit/DefaultHospitalVisitProvider.java:281-284 | setPerson sets the person and nothing else |
| HospitalVisitProviders.DefaultHospitalVisitProvider.SetAdmissionDate | src/main/java/org/isf/generator/producer/hospitalvisit/DefaultHospitalVisitProvider.java:286-289 | setAdmissionDate sets the admission date and nothing else |
| HospitalVisitProviders.DefaultHospitalVisitProvider.SetDischargePercentage | src/main/java/org/isf/generator/producer/hospitalvisit/DefaultHospitalVisitProvider.java:291-294 | setDischargePercentage sets the percentage and nothing else |
| HospitalVisitProviders.DefaultHospitalVisitProvider.SetDischarged | src/main/java/org/isf/generator/producer/hospitalvisit/DefaultHospitalVisitProvider.java:296-299 | isDischarged(boolean) sets the flag and nothing else |
| HospitalVisitProviders.DefaultHospitalVisitProvider.SetDiagnosis | src/main/java/org/isf/generator/producer/hospitalvisit/DefaultHospitalVisitProvider.java:301-304 | setDiagnosis sets the diagnosis and nothing else |
| HospitalVisitProviders.DefaultHospitalVisitProvider.SetDischargeType | src/main/java/org/isf/generator/producer/hospitalvisit/DefaultHospitalVisitProvider.java:306-309 | setDischargeType sets the discharge type and nothing else |
| Iban.CountryFromLanguageSpec | src/main/java/org/isf/generator/producer/payment/IBANProperties.java:105-108 | a language named in the table maps to its country, any other string to "PL", and the result is always one of the table's countries or "PL" |
| Iban.CountryFromLanguageTable | src/main/java/org/isf/generator/producer/payment/IBANProperties.java:34-44 | "SV" maps to "SV", "ZH" to "TW", "EN" to "GB", "KA" to "GE", while "SW" and lower-case "en" fall back to "PL" |
| Iban.MakeRequest | src/main/java/org/isf/generator/producer/payment/DefaultIBANProvider.java:67-71 | the builder gets country, bank, branch and national check digit as they are, and the account number only when it is neither null nor empty |
| Iban.IbanProvider.constructor | src/main/java/org/isf/generator/producer/payment/DefaultIBANProvider.java:49-53 | a new provider has every field unset |
| Iban.IbanProvider.SetNationalCheckDigit | src/main/java/org/isf/generator/producer/payment/DefaultIBANProvider.java:100-103 | sets the national check digit and nothing else |
| Iban.IbanProvider.SetBranchCode | src/main/java/org/isf/generator/producer/payment/DefaultIBANProvider.java:105-108 | sets the branch code and nothing else |
| Iban.IbanProvider.SetCountry | src/main/java/org/isf/generator/producer/payment/DefaultIBANProvider.java:110-113 | CountryCode.valueOf of a known code sets the country; an unknown code throws and leaves it unchanged |
| Iban.IbanProvider.SetAccountNumber | src/main/java/org/isf/generator/producer/payment/DefaultIBANProvider.java:115-118 | sets the account number and nothing else |
| Iban.IbanProvider.SetBankCode | src/main/java/org/isf/generator/producer/payment/DefaultIBANProvider.java:120-123 | sets the bank code and nothing else |
| Iban.Applied | src/main/java/org/isf/generator/producer/payment/IBANProperties.java:55-118 | a property is refused exactly when it sets a country that is not a CountryCode constant, with valueOf's error; otherwise its setter's part becomes its argument (the table's country for language()) and every other part is unchanged |
| Iban.IbanProvider.Apply | src/main/java/org/isf/generator/producer/payment/IBANProperties.java:55-118 | applying a property changes the provider's parts exactly as Applied says, and a refused property changes nothing |
| Iban.IbanProvider.ApplyAll | src/main/java/org/isf/generator/producer/payment/DefaultIBANProvider.java:54-56 | the parts and the outcome after the loop are those of AppliedAll: the properties in order, stopping at the first one that throws |
| Iban.FailureSticks | src/main/java/org/isf/generator/producer/payment/DefaultIBANProvider.java:54-56 | once a property has thrown, no later property is applied |
| Iban.AppliedAllPasses | src/main/java/org/isf/generator/producer/payment/DefaultIBANProvider.java:54-56 | construction gets through the list exactly when every property in it is accepted |
| Iban.FirstRefusalStops | src/main/java/org/isf/generator/producer/payment/DefaultIBANProvider.java:54-56 | the first refused property ends construction with its error, with every earlier property applied |
| Iban.UntouchedKept | src/main/java/org/isf/generator/producer/payment/DefaultIBANProvider.java:54-56 | a part that no property writes keeps its value, whether construction succeeds or not |
| Iban.LastSetWins | src/main/java/org/isf/generator/producer/payment/DefaultIBANProvider.java:54-56 | after a successful construction each part holds the argument of the last property that writes it |
| Iban.IbanProvider.DrawCountry | src/main/java/org/isf/generator/producer/payment/DefaultIBANProvider.java:94-95 | an unrecognised catalog language leaves an empty list and a range error; otherwise the country drawn speaks the language |
| Iban.IbanProvider.FillCountryCode | src/main/java/org/isf/generator/producer/payment/DefaultIBANProvider.java:91-98 | a preset country stays without a draw; otherwise the code of a country speaking the catalog language, or the error of the lookup |
| Iban.IbanProvider.Get | src/main/java/org/isf/generator/producer/payment/DefaultIBANProvider.java:59-89 | the fields stay; an unsupported country gives null, an illegal format "Invalid iban " and the message, otherwise the record assembled from the built IBAN |
| Iban.IbanProvider.Assemble | src/main/java/org/isf/generator/producer/payment/DefaultIBANProvider.java:74-82 | the record carries the provider's codes, the country's name and the built IBAN's parts |
| Random.RandomSource.constructor | src/main/java/org/isf/generator/producer/RandomGenerator.java:39-41 | a seeded generator starts at the first draw of the stream its seed fixes |
| Random.RandomSource.RandomBetween | src/main/java/org/isf/generator/producer/RandomGenerator.java:52-57 | the result lies between the bounds; equal bounds answer the bound without consuming a draw, otherwise one draw is consumed |
| Random.RandomSource.CheckedBetween | src/main/java/org/isf/generator/producer/DateProducer.java:69-75 | bounds in the wrong order are an error and consume nothing; otherwise the result lies between them |
| Random.RandomSource.RandomInt | src/main/java/org/isf/generator/producer/person/locale/pl/PlNationalIdentificationNumberProvider.java:98 | randomInt(max) lies in 0..max |
| Random.RandomSource.TrueOrFalse | src/main/java/org/isf/generator/producer/RandomGenerator.java:43-45 | a coin consumes exactly one draw, heads on an even draw |
| Random.RandomSource.RandomElement | src/main/java/org/isf/generator/data/MapBasedDataMaster.java:90 | an element of a non-empty list is one of its members; an empty list is an error |
| Random.RandomSource.RandomElements | src/main/java/org/isf/generator/producer/text/TextProducerInternal.java:113 | count elements taken without replacement: a sub-multiset of the list of exactly that size; a count outside 0..size is an error |
| Random.RandomSource.Numerify | src/main/java/org/isf/generator/producer/person/DefaultPersonProvider.java:212 | each # of the mask becomes a digit and every other character is kept |
| Random.RandomSource.Bothify | src/main/java/org/isf/generator/producer/person/locale/ka/KaNationalIdentityCardNumberProvider.java:63 | each # becomes a digit, each ? a lower-case letter, every other character is kept |
| Regex.MatchesExactly | src/main/java/org/isf/generator/producer/person/locale/de/DeNationalIdentityCardNumberProvider.java:40 | a pattern starting with X{n} matches exactly when the first n characters are in X and the rest matches the rest of the pattern |
| Regex.MatchesOptional | src/main/java/org/isf/generator/producer/person/locale/es/EsNationalIdentityCardNumberProvider.java:34 | a pattern starting with an optional class matches when the rest matches either the whole string or the string after one character of that class |
| Registry.ParseLanguage | src/main/java/org/isf/generator/Bootstrap.java:141-147 | the upper-cased language names its code when there is one, and EN otherwise |
| Registry.ModuleForLocaleSpec | src/main/java/org/isf/generator/Bootstrap.java:139-172 | a language selects a bundle other than the English one exactly when its upper-cased code is SW, PL, ES, FR, SV, ZH, DE or KA |
| Registry.NoOwnBundle | src/main/java/org/isf/generator/Bootstrap.java:144-147 | an unknown language, and any code without a case of its own, falls back to the English bundle |
| Registry.ModuleForLocaleIgnoresCase | src/main/java/org/isf/generator/Bootstrap.java:143 | the bundle does not depend on the case of the language code |
| Registry.OwnBundle | src/main/java/org/isf/generator/Bootstrap.java:149-167 | each of the eight codes, in any case, selects its own bundle |
| Registry.Builder.constructor | src/main/java/org/isf/generator/Bootstrap.java:176-179 | English locale, the "seed" prefix, an unseeded generator and no catalog |
| Registry.Builder.WithLocale | src/main/java/org/isf/generator/Bootstrap.java:196-199 | sets the locale, returns the same builder and changes nothing else |
| Registry.Builder.WithFilePrefix | src/main/java/org/isf/generator/Bootstrap.java:207-210 | sets the prefix, returns the same builder and changes nothing else |
| Registry.Builder.WithRandomSeed | src/main/java/org/isf/generator/Bootstrap.java:219-222 | sets the seed, returns the same builder and changes nothing else |
| Registry.Builder.WithDataMaster | src/main/java/org/isf/generator/Bootstrap.java:230-233 | sets the catalog, returns the same builder and changes nothing else |
| Registry.Builder.Build | src/main/java/org/isf/generator/Bootstrap.java:240-246 | a supplied catalog is used as is and no file is read; otherwise the default catalog reads prefix.yml then prefix_language.yml; the bundle is the one the locale selects |
| Sexes.SexCode | src/main/java/org/isf/generator/producer/person/locale/pl/PlNationalIdentificationNumberProvider.java:139-141 | the sex digit is a single digit, odd exactly for a male |
| JavaArrays.ArrayCopy | src/main/java/org/isf/generator/producer/person/locale/en/EnNationalIdentityCardNumberProvider.java:83 | System.arraycopy writes the source at the position and nothing else, or throws IndexOutOfBounds and writes nothing when it would overrun |
| KaIds.FormatsDisjoint | src/main/java/org/isf/generator/producer/person/locale/ka/KaNationalIdentityCardNumberProvider.java:43-64 | no number has both the old and the new card layout, so the format can be told from the number |
| KaIds.OldCard | src/main/java/org/isf/generator/producer/person/locale/ka/KaNationalIdentityCardNumberProvider.java:43-47 | an old card is 'N', one of the 33 Georgian letters of the alphabet string (the index is drawn from 0 to 32 inclusive) and seven digits |
| KaIds.NewCard | src/main/java/org/isf/generator/producer/person/locale/ka/KaNationalIdentityCardNumberProvider.java:61-64 | a new card is two digits, two upper-case letters and five digits |
| KaIds.NewCardFilled | src/main/java/org/isf/generator/producer/person/locale/ka/KaNationalIdentityCardNumberProvider.java:53-63 | bothifying "##??#####" and upper-casing gives the new card layout |
| KaIds.Get | src/main/java/org/isf/generator/producer/person/locale/ka/KaNationalIdentityCardNumberProvider.java:74-81 | a coin toss picks the format, and the number has that format's layout |
| KaIds.GetDistrictCode | src/main/java/org/isf/generator/producer/person/locale/ka/KaPassportNumberProvider.java:39-41 | the district code is two digits |
| KaIds.GetStateOfficeCode | src/main/java/org/isf/generator/producer/person/locale/ka/KaPassportNumberProvider.java:44-46 | the state office code is three digits, whatever the district |
| KaIds.GetNationalPersonalIdentificationNumber | src/main/java/org/isf/generator/producer/person/locale/ka/KaPassportNumberProvider.java:48-50 | the personal number is six digits |
| KaIds.GetPassport | src/main/java/org/isf/generator/producer/person/locale/ka/KaPassportNumberProvider.java:52-56 | the passport number is district, office and personal number concatenated: eleven digits |
| Languages.FromName | src/main/java/org/isf/generator/data/MapBasedDataMaster.java:95 | EnumUtils.getEnum finds the constant with exactly that name, or none when no constant has it |
| Languages.FromNameOfName | src/main/java/org/isf/generator/data/MapBasedDataMaster.java:95 | every constant is found by its own name |
| Luhn.CheckDigit | src/main/java/org/isf/generator/producer/person/locale/sv/SvNationalIdentificationNumberProvider.java:127-142 | the Luhn check digit is a single digit |
| Luhn.CheckDigitCompletes | src/main/java/org/isf/generator/producer/person/locale/sv/SvNationalIdentificationNumberProvider.java:127-142 | of the ten digits, exactly the check digit appended makes the number pass the Luhn check |
| Luhn.AppendDigit | src/main/java/org/isf/generator/producer/person/locale/sv/SvNationalIdentificationNumberProvider.java:127-142 | appending a digit adds it undoubled and shifts the doubling of the earlier digits |
| Luhn.Complement | src/main/java/org/isf/generator/producer/person/locale/sv/SvNationalIdentificationNumberProvider.java:127-142 | a digit completes a sum to a multiple of ten exactly when it is (10 - sum mod 10) mod 10 |
| Network.ShiftedRoundTrip | src/main/java/org/isf/generator/producer/net/NetworkProducer.java:48-52 | shifting each character up by 97 can be undone, so the domain determines the dotless IP |
| Network.DigitsShift | src/main/java/org/isf/generator/producer/net/NetworkProducer.java:49-52 | each digit shifts by 97 into the range 0x91 to 0x9A |
| Network.RemoveDotsShiftable | src/main/java/org/isf/generator/producer/net/NetworkProducer.java:47 | removing the dots keeps the IP shiftable |
| Network.Url | src/main/java/org/isf/generator/producer/net/NetworkProducer.java:46-59 | the URL is the scheme, the dotless IP shifted by 97 character by character, and ".com" |
| Network.UrlShape | src/main/java/org/isf/generator/producer/net/NetworkProducer.java:55-58 | the URL starts with "https://" exactly when isHttps, otherwise with "http://", ends with ".com", and its length is the scheme's, the IP's less its dots, and four |
| NoNin.Produce | src/main/java/org/isf/generator/producer/person/locale/NoNationalIdentificationNumberFactory.java:44-47 | the factory ignores the properties it is given |
| NoNin.Apply | src/main/java/org/isf/generator/producer/person/locale/NoNationalIdentificationNumberFactory.java:61-67 | setIssueDate and setSex change nothing |
| NoNin.AlwaysEmpty | src/main/java/org/isf/generator/producer/person/locale/NoNationalIdentificationNumberFactory.java:44-59 | whatever the properties and setter calls, the provider's number is the empty string |
| Persons.SexName | src/main/java/org/isf/generator/producer/person/Person.java:33-35 | the enum names are "MALE" for male and "FEMALE" for female |
| Persons.FullName | src/main/java/org/isf/generator/producer/person/Person.java:122-124 | the full name is the first name, one space and the last name |
| Persons.FullNameSkipsMiddle | src/main/java/org/isf/generator/producer/person/Person.java:122-124 | the middle name plays no part in the full name |
| Persons.FullNameInjective | src/main/java/org/isf/generator/producer/person/Person.java:122-124 | with a first name without spaces, equal full names mean equal first and last names |
| Persons.FirstSpace | src/main/java/org/isf/generator/producer/person/Person.java:122-124 | with a first name without spaces, the first space of the full name follows the first name |
| Persons.MaleOrFemale | src/main/java/org/isf/generator/producer/person/Person.java:126-132 | a person is male exactly when not female |
| Persons.GetAge | src/main/java/org/isf/generator/producer/person/Person.java:150-152 | getAge unboxes the age and throws a NullPointerException when it is null |
| PersonProperties.OverriddenAllSnoc | src/main/java/org/isf/generator/producer/person/DefaultPersonProvider.java:102-104 | applying one more property after a list is applying it to the list's result |
| PersonProperties.OverrideTouchesTarget | src/main/java/org/isf/generator/producer/person/PersonProperties.java:44-296 | each property changes only the field its setter assigns |
| PersonProperties.OverrideValue | src/main/java/org/isf/generator/producer/person/PersonProperties.java:44-214 | male and female set the sex, ageBetween the drawn age, withAge the age, the format properties their format; withMobileTelephoneNumber sets the landline number because setMobileTelephoneNumber assigns telephoneNumber |
| PersonProperties.OverridesNeverSetMobile | src/main/java/org/isf/generator/producer/person/DefaultPersonProvider.java:436-439 | no list of properties ever sets the mobile number |
| PersonProperties.AgeBounds.constructor | src/main/java/org/isf/generator/producer/person/PersonProperties.java:32-33 | both remembered bounds start empty |
| PersonProperties.AgeBounds.MinAge | src/main/java/org/isf/generator/producer/person/PersonProperties.java:76-79 | minAge remembers the minimum and asks for ageBetween up to the remembered maximum or 100 |
| PersonProperties.AgeBounds.MaxAge | src/main/java/org/isf/generator/producer/person/PersonProperties.java:81-84 | maxAge remembers the maximum and asks for ageBetween from the remembered minimum or 1 |
| PersonProperties.AgeBounds.Record | src/main/java/org/isf/generator/producer/person/PersonProperties.java:70-71 | applying ageBetween remembers both bounds |
| PersonProperties.MinThenMax | src/main/java/org/isf/generator/producer/person/PersonProperties.java:76-84 | minAge(a) then maxAge(b) asks for ages a to b the second time, because the static bound is shared |
| Pesel.CalculateChecksum | src/main/java/org/isf/generator/producer/person/locale/pl/PlNationalIdentificationNumberProvider.java:143-155 | the loop over the ten weights computes the checksum value |
| Pesel.ChecksumCompletes | src/main/java/org/isf/generator/producer/person/locale/pl/PlNationalIdentificationNumberProvider.java:143-155 | on ten digits the checksum is a digit that brings the weighted sum to a multiple of ten |
| Pesel.IsValidSpec | src/main/java/org/isf/generator/producer/person/locale/pl/PlNationalIdentificationNumberProvider.java:121-132 | any length but eleven is invalid; eleven digits are valid exactly when the weighted sum plus the last digit is a multiple of ten |
| Pesel.CompletedIsValid | src/main/java/org/isf/generator/producer/person/locale/pl/PlNationalIdentificationNumberProvider.java:101-104 | ten digits followed by their checksum form an eleven-digit number that isValid accepts and that starts with those ten digits |
| Pesel.CalculateMonth | src/main/java/org/isf/generator/producer/person/locale/pl/PlNationalIdentificationNumberProvider.java:134-136 | the month gets +80 for 1701-1899 (truncating division folds the 1700s onto index 0), +0 for the 1900s, +20, +40, +60 for the next three centuries; other years are an index error |
| Pesel.MonthEncodingRoundTrip | src/main/java/org/isf/generator/producer/person/locale/pl/PlNationalIdentificationNumberProvider.java:134-136 | for 1800-2299 the encoded month stays below 100, gives the month back modulo 20 and, with the two-digit year, gives the full year back |
| Pesel.EighteenthCenturyShift | src/main/java/org/isf/generator/producer/person/locale/pl/PlNationalIdentificationNumberProvider.java:134-136 | a date in 1750 is encoded exactly as the same date in 1850 |
| Pesel.Body | src/main/java/org/isf/generator/producer/person/locale/pl/PlNationalIdentificationNumberProvider.java:101-102 | the ten formatted digits hold the two-digit year, the encoded month, the day, the three-digit serial and the sex digit, each readable back |
| Pesel.BodyEncodes | src/main/java/org/isf/generator/producer/person/locale/pl/PlNationalIdentificationNumberProvider.java:95-104 | a body built from a date, a sex and a serial, followed by its checksum, is valid and encodes that date and that sex (odd sex digit for a male) |
| Pesel.PeselProvider.constructor | src/main/java/org/isf/generator/producer/person/locale/pl/PlNationalIdentificationNumberProvider.java:67-74 | no issue date and no sex preset |
| Pesel.PeselProvider.SetIssueDate | src/main/java/org/isf/generator/producer/person/locale/pl/PlNationalIdentificationNumberProvider.java:108-110 | sets the issue date and keeps the sex |
| Pesel.PeselProvider.SetSex | src/main/java/org/isf/generator/producer/person/locale/pl/PlNationalIdentificationNumberProvider.java:113-115 | sets the sex and keeps the issue date |
| Pesel.PeselProvider.Get | src/main/java/org/isf/generator/producer/person/locale/pl/PlNationalIdentificationNumberProvider.java:83-93 | a preset issue date and sex are kept; otherwise the date is drawn from the last ten years and the sex from a coin; the number encodes both, and it fails exactly for a year outside the month table |
| Pesel.PeselProvider.Generate | src/main/java/org/isf/generator/producer/person/locale/pl/PlNationalIdentificationNumberProvider.java:95-105 | for a supported year the result is a valid PESEL encoding the date and the sex; for any other year it fails |
| PlIdCard.CalculateChecksum | src/main/java/org/isf/generator/producer/person/locale/pl/PlNationalIdentityCardNumberProvider.java:107-123 | the loop computes the check character, letters counting from 10 and digits at face value |
| PlIdCard.ChecksumIgnoresCheck | src/main/java/org/isf/generator/producer/person/locale/pl/PlNationalIdentityCardNumberProvider.java:107-123 | the character at the checksum position never affects the checksum |
| PlIdCard.IsValidIffStandard | src/main/java/org/isf/generator/producer/person/locale/pl/PlNationalIdentityCardNumberProvider.java:101-105 | on the ID layout isValid accepts exactly the numbers whose standard weighted sum, check digit included with weight 9, is a multiple of ten |
| PlIdCard.CheckedIsValid | src/main/java/org/isf/generator/producer/person/locale/pl/PlNationalIdentityCardNumberProvider.java:93-105 | three upper-case letters and five digits completed with their checksum form an ID that isValid accepts |
| PlIdCard.LettersPrefix | src/main/java/org/isf/generator/producer/person/locale/pl/PlNationalIdentityCardNumberProvider.java:134-135 | the letter prefix is upper case and at least three letters long |
| PlIdCard.LettersPrefixDecodes | src/main/java/org/isf/generator/producer/person/locale/pl/PlNationalIdentityCardNumberProvider.java:134-135 | a range below 26^3 gives exactly three letters that read back, in base 26, as the range |
| PlIdCard.ThreeLettersUntil2389 | src/main/java/org/isf/generator/producer/person/locale/pl/PlNationalIdentityCardNumberProvider.java:131-137 | for issue years up to 2389 the prefix is three letters encoding the drawn range |
| PlIdCard.LettersCount | src/main/java/org/isf/generator/producer/person/locale/pl/PlNationalIdentityCardNumberProvider.java:131-137 | the padded base-26 spelling of a drawn value has exactly three letters when the value is below 26^3 = 17576, and four from 17576 up to 26^4 |
| PlIdCard.FourLettersIn2390 | src/main/java/org/isf/generator/producer/person/locale/pl/PlNationalIdentityCardNumberProvider.java:131-137 | in 2390 the window 17550..17595 straddles 26^3: the draw 17575 gives three letters and the draw 17576 already four |
| PlIdCard.FourLettersFrom2391 | src/main/java/org/isf/generator/producer/person/locale/pl/PlNationalIdentityCardNumberProvider.java:131-137 | for every issue year from 2391 on, every drawn value needs at least four letters, exactly four up to the year 12154, so the three letter slots no longer encode the value |
| PlIdCard.FillLettersPart | src/main/java/org/isf/generator/producer/person/locale/pl/PlNationalIdentityCardNumberProvider.java:131-137 | the range is drawn in the year's window; a prefix longer than the array is an index error, otherwise it is copied to the front and the rest is untouched |
| PlIdCard.FillDigitsPart | src/main/java/org/isf/generator/producer/person/locale/pl/PlNationalIdentityCardNumberProvider.java:125-129 | five zero-padded digits of a draw up to 99999 are written after the checksum position and nothing else changes |
| PlIdCard.GetForDate | src/main/java/org/isf/generator/producer/person/locale/pl/PlNationalIdentityCardNumberProvider.java:84-99 | a year before 2000 is an IllegalArgumentException with its message; otherwise the result is a valid ID whose letters encode a range in the year's window |
| PlIdCard.Assembled | src/main/java/org/isf/generator/producer/person/locale/pl/PlNationalIdentityCardNumberProvider.java:88-97 | writing the checksum into the assembled array gives a valid ID and leaves the letters alone |
| PlIdCard.Get | src/main/java/org/isf/generator/producer/person/locale/pl/PlNationalIdentityCardNumberProvider.java:77-82 | fails when the current year is 2000 or earlier; succeeds whenever the prefix fits; a result is a valid ID for an issue year from 2000 to now |
| PlPassport.LetterDigits.constructor | src/main/java/org/isf/generator/producer/person/locale/pl/PlPassportNumberProvider.java:46 | the shared letter table starts out null |
| PlPassport.SumDigits | src/main/java/org/isf/generator/producer/person/locale/pl/PlPassportNumberProvider.java:76-79 | the loop sums the weighted digit values as the digit-sum function says |
| PlPassport.SumSeries | src/main/java/org/isf/generator/producer/person/locale/pl/PlPassportNumberProvider.java:72-75 | the loop sums the weighted table values of the two series letters |
| PlPassport.FillChecksum | src/main/java/org/isf/generator/producer/person/locale/pl/PlPassportNumberProvider.java:70-81 | a failed sum changes nothing; otherwise only the checksum position changes, to the checksum |
| PlPassport.PassportCheckSumIsValid | src/main/java/org/isf/generator/producer/person/locale/pl/PlPassportNumberProvider.java:93-105 | the validator's loops compute the validity function |
| PlPassport.SeriesSumFilled | src/main/java/org/isf/generator/producer/person/locale/pl/PlPassportNumberProvider.java:72-75 | with a filled table two upper-case series letters always have a non-negative sum |
| PlPassport.ChecksumOnLayout | src/main/java/org/isf/generator/producer/person/locale/pl/PlPassportNumberProvider.java:70-81 | on the passport layout the check character is the last digit of the weighted sum of series and digits |
| PlPassport.ValidatorOnLayout | src/main/java/org/isf/generator/producer/person/locale/pl/PlPassportNumberProvider.java:93-105 | on the layout the validator accepts exactly when that sum plus nine times the check value is a multiple of ten |
| PlPassport.ChecksumIgnoresCheck | src/main/java/org/isf/generator/producer/person/locale/pl/PlPassportNumberProvider.java:70-81 | the character at the checksum position never affects the checksum |
| PlPassport.ValidIffCheckDigit | src/main/java/org/isf/generator/producer/person/locale/pl/PlPassportNumberProvider.java:93-105 | with a digit in the check position the validator accepts exactly when that digit is the one fillChecksum writes |
| PlPassport.CheckedIsValid | src/main/java/org/isf/generator/producer/person/locale/pl/PlPassportNumberProvider.java:57-68 | a passport completed by fillChecksum passes the validator |
| PlPassport.ValidatorAcceptsLetterCheck | src/main/java/org/isf/generator/producer/person/locale/pl/PlPassportNumberProvider.java:100-104 | the validator also accepts an upper-case letter in the check position whose numeric value ends in the right digit |
| PlPassport.NoTableNoValidation | src/main/java/org/isf/generator/producer/person/locale/pl/PlPassportNumberProvider.java:93-98 | before any provider is constructed the table is null and validation throws a NullPointerException |
| PlPassport.LowerSeriesThrows | src/main/java/org/isf/generator/producer/person/locale/pl/PlPassportNumberProvider.java:96-98 | a lower-case series letter has no table entry and validation throws a NullPointerException |
| PlPassport.PlPassportNumberProvider.constructor | src/main/java/org/isf/generator/producer/person/locale/pl/PlPassportNumberProvider.java:48-55 | the alphabet is A..Z and letter i is mapped to 10 + i |
| PlPassport.PlPassportNumberProvider.Get | src/main/java/org/isf/generator/producer/person/locale/pl/PlPassportNumberProvider.java:57-68 | the series is upper-cased, the six digits follow the check position, the check position holds a digit, and the result passes the validator |
| PersonProviders.UsernameBase | src/main/java/org/isf/generator/producer/person/DefaultPersonProvider.java:197-201 | the text before case folding: first initial + last name or first name + last initial; a null name is a NullPointerException and an empty one an index error, and it succeeds exactly when the name it takes a character from is non-empty |
| PersonProviders.UsernameBaseShape | src/main/java/org/isf/generator/producer/person/DefaultPersonProvider.java:197-201 | on two non-empty names the base is the first initial followed by the whole last name, or the whole first name followed by the last initial |
| PersonProviders.Username | src/main/java/org/isf/generator/producer/person/DefaultPersonProvider.java:198 | the lower-cased, accent-stripped username holds no upper-case letter |
| PersonProviders.NationalityFitsSpec | src/main/java/org/isf/generator/producer/person/DefaultPersonProvider.java:376-379 | the nationality is a country speaking the data's language, or Uganda when there is no such country |
| PersonProviders.ParentsTogetherRule | src/main/java/org/isf/generator/producer/person/DefaultPersonProvider.java:355-366 | parentsTogether is U exactly when either parent's status is unknown, Y only on a heads draw with neither parent unknown or dead, N otherwise; the rule is symmetric in mother and father |
| PersonProviders.DrawTypedString | src/main/java/org/isf/generator/producer/person/DefaultPersonProvider.java:164 | a name drawn by getValuesOfType is one of the list stored for that key and sex; a missing or empty list is an error |
| PersonProviders.MakeTelephoneNumber | src/main/java/org/isf/generator/producer/person/DefaultPersonProvider.java:205-213 | a preset format is kept, otherwise one is drawn from the stored formats; the number is the format with every # replaced by a digit |
| PersonProviders.DrawBirth | src/main/java/org/isf/generator/producer/person/DefaultPersonProvider.java:243-245 | the drawn date of birth lies in the corrected window for the age (see Findings) and is exactly `age` whole years before today |
| PersonProviders.DefaultPersonProvider.constructor | src/main/java/org/isf/generator/producer/person/DefaultPersonProvider.java:87-100 | keeps the collaborators it is given and leaves every person field unset |
| PersonProviders.DefaultPersonProvider.Create | src/main/java/org/isf/generator/producer/person/DefaultPersonProvider.java:87-105 | applies the overrides in order; succeeds exactly when every ageBetween has min <= max, and then every drawn age lies within its bounds and the fields are those of the overrides applied to an empty provider |
| PersonProviders.DefaultPersonProvider.Apply | src/main/java/org/isf/generator/producer/person/DefaultPersonProvider.java:102-104 | one override changes the fields as that override's setter does; it fails, changing nothing, exactly when it is an ageBetween with min > max, and an ageBetween records its bounds |
| PersonProviders.DefaultPersonProvider.ApplyNames | src/main/java/org/isf/generator/producer/person/DefaultPersonProvider.java:102-104 | a name override writes its field as its setter does |
| PersonProviders.DefaultPersonProvider.ApplyPapers | src/main/java/org/isf/generator/producer/person/DefaultPersonProvider.java:102-104 | a contact or paper override writes its field as its setter does |
| PersonProviders.DefaultPersonProvider.Get | src/main/java/org/isf/generator/producer/person/DefaultPersonProvider.java:108-141 | never overwrites a preset field; on success every field is filled and the person is built from them, each generated field coming from its list or rule (names by sex, age within 1..100 and the date of birth exactly that many years back (by the corrected birth window), under-20s with unknown profession and marital status, nationality speaking the data's language, parents' statuses from their list) |
| PersonProviders.DefaultPersonProvider.FillPersonal | src/main/java/org/isf/generator/producer/person/DefaultPersonProvider.java:110-120 | the first eleven generate steps: each fills its field only when unset and leaves every other field alone, with the same per-field guarantees as get() |
| PersonProviders.DefaultPersonProvider.FillBackground | src/main/java/org/isf/generator/producer/person/DefaultPersonProvider.java:121-136 | the remaining generate steps: each fills its field only when unset (blood type and the parents' statuses always), with the same per-field guarantees as get() |
| PersonProviders.DefaultPersonProvider.GenerateNames | src/main/java/org/isf/generator/producer/person/DefaultPersonProvider.java:110-114 | sex, company and the three names are filled, presets kept, names drawn from the lists for the person's sex |
| PersonProviders.DefaultPersonProvider.GenerateContacts | src/main/java/org/isf/generator/producer/person/DefaultPersonProvider.java:115-117 | email, username and telephone number are filled, presets kept |
| PersonProviders.DefaultPersonProvider.GenerateBirth | src/main/java/org/isf/generator/producer/person/DefaultPersonProvider.java:118-120 | age, date of birth and company email are filled, presets kept |
| PersonProviders.DefaultPersonProvider.GeneratePapers | src/main/java/org/isf/generator/producer/person/DefaultPersonProvider.java:121-127 | password, papers, address, nationality and mobile number are filled, presets kept |
| PersonProviders.DefaultPersonProvider.GenerateOccupation | src/main/java/org/isf/generator/producer/person/DefaultPersonProvider.java:128-130 | profession, marital status and blood type are filled, presets of the first two kept |
| PersonProviders.DefaultPersonProvider.GenerateFamily | src/main/java/org/isf/generator/producer/person/DefaultPersonProvider.java:131-136 | parents' names, statuses and the two flags are filled, presets of names and flags kept |
| PersonProviders.DefaultPersonProvider.GenerateSex | src/main/java/org/isf/generator/producer/person/DefaultPersonProvider.java:143-149 | a preset sex is kept without a draw; otherwise one coin is drawn, heads giving MALE |
| PersonProviders.DefaultPersonProvider.GenerateCompany | src/main/java/org/isf/generator/producer/person/DefaultPersonProvider.java:151-157 | a preset company is kept; otherwise the company is built from a listed name and its e-mail is listed |
| PersonProviders.DefaultPersonProvider.GenerateFirstName | src/main/java/org/isf/generator/producer/person/DefaultPersonProvider.java:159-165 | a preset first name is kept; otherwise a null sex is a NullPointerException and the name comes from the first-name list for the sex |
| PersonProviders.DefaultPersonProvider.GenerateMiddleName | src/main/java/org/isf/generator/producer/person/DefaultPersonProvider.java:167-173 | a preset middle name is kept; on tails it is empty, on heads it comes from the first-name list for the sex |
| PersonProviders.DefaultPersonProvider.GenerateLastName | src/main/java/org/isf/generator/producer/person/DefaultPersonProvider.java:175-181 | a preset last name is kept; otherwise it comes from the last-name list for the sex |
| PersonProviders.DefaultPersonProvider.GenerateEmail | src/main/java/org/isf/generator/producer/person/DefaultPersonProvider.java:183-190 | a preset e-mail is kept; otherwise it is one of the three personal shapes on a listed domain, cleaned |
| PersonProviders.DefaultPersonProvider.GenerateUsername | src/main/java/org/isf/generator/producer/person/DefaultPersonProvider.java:192-202 | a preset username is kept; otherwise it fails exactly as the base does and succeeds with the lower-cased base |
| PersonProviders.DefaultPersonProvider.GenerateTelephoneNumber | src/main/java/org/isf/generator/producer/person/DefaultPersonProvider.java:204-213 | a preset number is kept; a preset format is kept, otherwise one is drawn from the list; the number numerifies the format |
| PersonProviders.DefaultPersonProvider.GenerateMobileTelephoneNumber | src/main/java/org/isf/generator/producer/person/DefaultPersonProvider.java:215-224 | the same for the mobile number and its own format |
| PersonProviders.DefaultPersonProvider.GenerateAge | src/main/java/org/isf/generator/producer/person/DefaultPersonProvider.java:226-236 | a preset date of birth fixes the age as whole years to now; otherwise a preset age is kept and an unset one is drawn in 1..100 |
| PersonProviders.DefaultPersonProvider.GenerateDateOfBirth | src/main/java/org/isf/generator/producer/person/DefaultPersonProvider.java:238-246 | a preset date is kept; a null age is a NullPointerException; otherwise the date lies in the corrected one-year window and is exactly `age` years before today |
| PersonProviders.DefaultPersonProvider.GenerateCompanyEmail | src/main/java/org/isf/generator/producer/person/DefaultPersonProvider.java:248-255 | a preset company e-mail is kept; a null company is a NullPointerException; otherwise it is the company e-mail of the names on the company's domain |
| PersonProviders.DefaultPersonProvider.GeneratePassword | src/main/java/org/isf/generator/producer/person/DefaultPersonProvider.java:257-264 | a preset password is kept, otherwise the supplied one is taken |
| PersonProviders.DefaultPersonProvider.GenerateNationalIdentityCardNumber | src/main/java/org/isf/generator/producer/person/DefaultPersonProvider.java:266-272 | a preset card number is kept, otherwise the supplied one is taken |
| PersonProviders.DefaultPersonProvider.GenerateNationalIdentificationNumber | src/main/java/org/isf/generator/producer/person/DefaultPersonProvider.java:274-281 | a preset number is kept, otherwise it is the number the provider gives for the date of birth and sex |
| PersonProviders.DefaultPersonProvider.GenerateAddress | src/main/java/org/isf/generator/producer/person/DefaultPersonProvider.java:283-289 | a preset address is kept, otherwise the supplied one is taken |
| PersonProviders.DefaultPersonProvider.GeneratePassportNumber | src/main/java/org/isf/generator/producer/person/DefaultPersonProvider.java:291-297 | a preset passport number is kept, otherwise the supplied one is taken |
| PersonProviders.DefaultPersonProvider.GenerateNationality | src/main/java/org/isf/generator/producer/person/DefaultPersonProvider.java:376-379 | always overwrites: a country speaking the data's language, Uganda when none does; fails when the data has no language |
| PersonProviders.DefaultPersonProvider.GenerateProfession | src/main/java/org/isf/generator/producer/person/DefaultPersonProvider.java:299-309 | a preset profession is kept; a null age is a NullPointerException; up to 19 it is "unknown", above that it comes from the profession list for the sex |
| PersonProviders.DefaultPersonProvider.GenerateMaritalStatus | src/main/java/org/isf/generator/producer/person/DefaultPersonProvider.java:311-321 | a preset status is kept; up to 19 it is "unknown", above that it comes from the marital-status list |
| PersonProviders.DefaultPersonProvider.GenerateBloodType | src/main/java/org/isf/generator/producer/person/DefaultPersonProvider.java:323-326 | always overwrites the blood type with one from its list; fails when the list is missing |
| PersonProviders.DefaultPersonProvider.GenerateNameOfMother | src/main/java/org/isf/generator/producer/person/DefaultPersonProvider.java:328-334 | a preset name is kept, otherwise it comes from the female first-name list |
| PersonProviders.DefaultPersonProvider.GenerateNameOfFather | src/main/java/org/isf/generator/producer/person/DefaultPersonProvider.java:341-347 | a preset name is kept, otherwise it comes from the male first-name list |
| PersonProviders.DefaultPersonProvider.GenerateMotherAlive | src/main/java/org/isf/generator/producer/person/DefaultPersonProvider.java:336-339 | always overwrites the status with the first character of an entry of the parents-alive list |
| PersonProviders.DefaultPersonProvider.GenerateFatherAlive | src/main/java/org/isf/generator/producer/person/DefaultPersonProvider.java:349-352 | the same for the father |
| PersonProviders.DefaultPersonProvider.DrawStatus | src/main/java/org/isf/generator/producer/person/DefaultPersonProvider.java:338 | the status is the first character of a listed entry; a missing list is an error |
| PersonProviders.DefaultPersonProvider.GenerateParentsTogether | src/main/java/org/isf/generator/producer/person/DefaultPersonProvider.java:354-366 | a set flag is kept; otherwise it follows the parents' statuses and one coin |
| PersonProviders.DefaultPersonProvider.GenerateHasInsurance | src/main/java/org/isf/generator/producer/person/DefaultPersonProvider.java:368-374 | a set flag is kept; otherwise heads gives Y and tails N |
| PersonProviders.DefaultPersonProvider.SetTelephoneNumberFormat | src/main/java/org/isf/generator/producer/person/DefaultPersonProvider.java:382-384 | sets the telephone number format and changes no other field |
| PersonProviders.DefaultPersonProvider.SetMobileTelephoneNumberFormat | src/main/java/org/isf/generator/producer/person/DefaultPersonProvider.java:387-389 | sets the mobile telephone number format and changes no other field |
| PersonProviders.DefaultPersonProvider.SetSex | src/main/java/org/isf/generator/producer/person/DefaultPersonProvider.java:392-394 | sets the sex and changes no other field |
| PersonProviders.DefaultPersonProvider.SetAge | src/main/java/org/isf/generator/producer/person/DefaultPersonProvider.java:397-399 | sets the age and changes no other field |
| PersonProviders.DefaultPersonProvider.SetCompany | src/main/java/org/isf/generator/producer/person/DefaultPersonProvider.java:402-404 | sets the company and changes no other field |
| PersonProviders.DefaultPersonProvider.SetFirstName | src/main/java/org/isf/generator/producer/person/DefaultPersonProvider.java:407-409 | sets the first name and changes no other field |
| PersonProviders.DefaultPersonProvider.SetMiddleName | src/main/java/org/isf/generator/producer/person/DefaultPersonProvider.java:412-414 | sets the middle name and changes no other field |
| PersonProviders.DefaultPersonProvider.SetLastName | src/main/java/org/isf/generator/producer/person/DefaultPersonProvider.java:417-419 | sets the last name and changes no other field |
| PersonProviders.DefaultPersonProvider.SetEmail | src/main/java/org/isf/generator/producer/person/DefaultPersonProvider.java:422-424 | sets the email and changes no other field |
| PersonProviders.DefaultPersonProvider.SetUsername | src/main/java/org/isf/generator/producer/person/DefaultPersonProvider.java:427-429 | sets the username and changes no other field |
| PersonProviders.DefaultPersonProvider.SetTelephoneNumber | src/main/java/org/isf/generator/producer/person/DefaultPersonProvider.java:432-434 | sets the telephone number and changes no other field |
| PersonProviders.DefaultPersonProvider.SetMobileTelephoneNumber | src/main/java/org/isf/generator/producer/person/DefaultPersonProvider.java:437-439 | assigns the landline telephone number, as the source does, and leaves the mobile number alone |
| PersonProviders.DefaultPersonProvider.SetDateOfBirth | src/main/java/org/isf/generator/producer/person/DefaultPersonProvider.java:442-444 | sets the date of birth and changes no other field |
| PersonProviders.DefaultPersonProvider.SetPassword | src/main/java/org/isf/generator/producer/person/DefaultPersonProvider.java:447-449 | sets the password and changes no other field |
| PersonProviders.DefaultPersonProvider.SetAddress | src/main/java/org/isf/generator/producer/person/DefaultPersonProvider.java:452-454 | sets the address and changes no other field |
| PersonProviders.DefaultPersonProvider.SetCompanyEmail | src/main/java/org/isf/generator/producer/person/DefaultPersonProvider.java:457-459 | sets the company email and changes no other field |
| PersonProviders.DefaultPersonProvider.SetNationalIdentityCardNumber | src/main/java/org/isf/generator/producer/person/DefaultPersonProvider.java:462-464 | sets the national identity card number and changes no other field |
| PersonProviders.DefaultPersonProvider.SetNationalIdentificationNumber | src/main/java/org/isf/generator/producer/person/DefaultPersonProvider.java:467-469 | sets the national identification number and changes no other field |
| PersonProviders.DefaultPersonProvider.SetPassportNumber | src/main/java/org/isf/generator/producer/person/DefaultPersonProvider.java:472-474 | sets the passport number and changes no other field |
| PersonProviders.DefaultPersonProvider.SetProfession | src/main/java/org/isf/generator/producer/person/DefaultPersonProvider.java:477-479 | sets the profession and changes no other field |
| PersonProviders.DefaultPersonProvider.SetMaritalStatus | src/main/java/org/isf/generator/producer/person/DefaultPersonProvider.java:482-484 | sets the marital status and changes no other field |
| PersonProviders.DefaultPersonProvider.SetBloodType | src/main/java/org/isf/generator/producer/person/DefaultPersonProvider.java:487-489 | sets the blood type and changes no other field |
| PersonProviders.DefaultPersonProvider.SetNameOfMother | src/main/java/org/isf/generator/producer/person/DefaultPersonProvider.java:492-494 | sets the name of mother and changes no other field |
| PersonProviders.DefaultPersonProvider.SetNameOfFather | src/main/java/org/isf/generator/producer/person/DefaultPersonProvider.java:497-499 | sets the name of father and changes no other field |
| PersonProviders.DefaultPersonProvider.SetParentsTogether | src/main/java/org/isf/generator/producer/person/DefaultPersonProvider.java:502-504 | sets the parents together and changes no other field |
| SvPersonalNumber.CalculateChecksum | src/main/java/org/isf/generator/producer/person/locale/sv/SvNationalIdentificationNumberProvider.java:127-140 | the loop over the nine weights, on the text without hyphens, computes the checksum value |
| SvPersonalNumber.HyphenIgnored | src/main/java/org/isf/generator/producer/person/locale/sv/SvNationalIdentificationNumberProvider.java:128 | hyphens anywhere in the input do not change the checksum |
| SvPersonalNumber.ChecksumIsCheckDigit | src/main/java/org/isf/generator/producer/person/locale/sv/SvNationalIdentificationNumberProvider.java:127-140 | on nine digits the checksum is the Luhn check digit |
| SvPersonalNumber.DigitsChecksum | src/main/java/org/isf/generator/producer/person/locale/sv/SvNationalIdentificationNumberProvider.java:113-121 | on ten digits the last digit equals the checksum of the first nine exactly when the ten pass the Luhn test |
| SvPersonalNumber.IsValidIffLuhn | src/main/java/org/isf/generator/producer/person/locale/sv/SvNationalIdentificationNumberProvider.java:113-121 | on the yyMMdd-sssc layout isValid accepts exactly the numbers whose ten digits pass the Luhn test |
| SvPersonalNumber.Body | src/main/java/org/isf/generator/producer/person/locale/sv/SvNationalIdentificationNumberProvider.java:97-98 | the formatted body is yyMMdd, a hyphen, the two-digit serial and the sex digit, each field readable back |
| SvPersonalNumber.BodyChecksum | src/main/java/org/isf/generator/producer/person/locale/sv/SvNationalIdentificationNumberProvider.java:100 | the checksum of a formatted body is the Luhn check digit of its nine digits |
| SvPersonalNumber.BodyEncodes | src/main/java/org/isf/generator/producer/person/locale/sv/SvNationalIdentificationNumberProvider.java:93-101 | a body followed by its checksum is a valid number that encodes the date of birth and the sex (odd sex digit for a male) |
| SvPersonalNumber.SvPersonalNumberProvider.constructor | src/main/java/org/isf/generator/producer/person/locale/sv/SvNationalIdentificationNumberProvider.java:66-72 | no date and no sex preset |
| SvPersonalNumber.SvPersonalNumberProvider.SetIssueDate | src/main/java/org/isf/generator/producer/person/locale/sv/SvNationalIdentificationNumberProvider.java:104-106 | sets the date and keeps the sex |
| SvPersonalNumber.SvPersonalNumberProvider.SetSex | src/main/java/org/isf/generator/producer/person/locale/sv/SvNationalIdentificationNumberProvider.java:109-111 | sets the sex and keeps the date |
| SvPersonalNumber.SvPersonalNumberProvider.Get | src/main/java/org/isf/generator/producer/person/locale/sv/SvNationalIdentificationNumberProvider.java:81-91 | a preset date and sex are kept; otherwise the date is drawn from the last 120 years and the sex from a coin; the result is a valid number encoding both |
| SvPersonalNumber.Generate | src/main/java/org/isf/generator/producer/person/locale/sv/SvNationalIdentificationNumberProvider.java:93-101 | the result is a valid number encoding the given date and sex |
| SvVat.GroupValue | src/main/java/org/isf/generator/producer/company/locale/sv/SvVATIdentificationNumberProvider.java:109-117 | a group number is one of 1, 2, 3, 5, 6, 7, 8, 9 |
| SvVat.FramedIsValid | src/main/java/org/isf/generator/producer/company/locale/sv/SvVATIdentificationNumberProvider.java:74-76 | ten Luhn-valid digits framed by SE and 01 form a VAT number that isValid accepts |
| SvVat.IsValidIffLuhn | src/main/java/org/isf/generator/producer/company/locale/sv/SvVATIdentificationNumberProvider.java:93-103 | on fourteen characters with ten digits after SE, isValid accepts exactly when those ten digits pass the Luhn test |
| SvVat.OrganisationBody | src/main/java/org/isf/generator/producer/company/locale/sv/SvVATIdentificationNumberProvider.java:73 | the nine digits start with the group value, then the random digit, a number from 20 to 99 and five digits |
| SvVat.CompanyNumber | src/main/java/org/isf/generator/producer/company/locale/sv/SvVATIdentificationNumberProvider.java:71-76 | a company VAT number is well formed and valid, with a group digit other than 0 and 4 and a two-digit field from 20 to 99 |
| SvVat.SoleTraderNumber | src/main/java/org/isf/generator/producer/company/locale/sv/SvVATIdentificationNumberProvider.java:79-87 | a sole trader's date of birth lies between 100 and 16 years back and the VAT number is SE, the digits of a personal number encoding that date, then 01; it is valid |
| SvVat.Get | src/main/java/org/isf/generator/producer/company/locale/sv/SvVATIdentificationNumberProvider.java:64-77 | every generated VAT number, of either kind, is well formed and valid |
| SwNin.DrawnBirthDateTooYoung | src/main/java/org/isf/generator/producer/person/locale/sw/SwNationalIdentificationNumberProvider.java:67-74 | a date of birth drawn from the last 15 years is never more than 15 years back, so it never earns a number |
| SwNin.SwNinProvider.constructor | src/main/java/org/isf/generator/producer/person/locale/sw/SwNationalIdentificationNumberProvider.java:53-57 | no date of birth and no sex preset |
| SwNin.SwNinProvider.SetIssueDate | src/main/java/org/isf/generator/producer/person/locale/sw/SwNationalIdentificationNumberProvider.java:78-80 | sets the date of birth and keeps the sex |
| SwNin.SwNinProvider.SetSex | src/main/java/org/isf/generator/producer/person/locale/sw/SwNationalIdentificationNumberProvider.java:83-85 | sets the sex and keeps the date of birth |
| SwNin.SwNinProvider.Get | src/main/java/org/isf/generator/producer/person/locale/sw/SwNationalIdentificationNumberProvider.java:66-75 | a person more than 15 whole years old gets eleven random digits and anyone else the empty string; with no date of birth preset the result is always empty |
| TextProducers.Split | src/main/java/org/isf/generator/producer/text/TextProducerInternal.java:73-74 | splitting on a separator yields non-empty tokens none of which contains the separator |
| TextProducers.SplitNoSeparator | src/main/java/org/isf/generator/producer/text/TextProducerInternal.java:73-74 | a text without the separator splits into itself alone |
| TextProducers.DeleteChars | src/main/java/org/isf/generator/producer/text/TextProducerInternal.java:99 | deleting '.', ',' and ' ' leaves none of them and never lengthens the word |
| TextProducers.Uncapitalize | src/main/java/org/isf/generator/producer/text/TextProducerInternal.java:99 | only the first character changes, to its lower-case form |
| TextProducers.CleanWordShape | src/main/java/org/isf/generator/producer/text/TextProducerInternal.java:99 | a cleaned word holds no '.', ',' or ' ' and starts, if with a letter, with a lower-case one |
| TextProducers.CleanAll | src/main/java/org/isf/generator/producer/text/TextProducerInternal.java:97-100 | one cleaned word per raw word, in order |
| TextProducers.CleanWordsSpaces | src/main/java/org/isf/generator/producer/text/TextProducerInternal.java:96-102 | joined cleaned words hold exactly one space between each pair and no other |
| TextProducers.FinishSentence | src/main/java/org/isf/generator/producer/text/TextProducerInternal.java:135-139 | a finished sentence is non-empty and ends with '.' |
| TextProducers.FinishSentenceSpec | src/main/java/org/isf/generator/producer/text/TextProducerInternal.java:135-139 | a trailing ',' is removed, then a '.' is added only when missing; finishing twice changes nothing |
| TextProducers.Left | src/main/java/org/isf/generator/producer/text/TextProducer.java:65 | left(s, n): empty for a negative n, otherwise the first min(n, length) characters of s |
| TextProducers.TextProducerInternal.constructor | src/main/java/org/isf/generator/producer/text/TextProducerInternal.java:69-77 | the word lists are the texts split on spaces and maxAlphabetIndex is the alphabet's length minus one |
| TextProducers.TextProducerInternal.RandomString | src/main/java/org/isf/generator/producer/text/TextProducerInternal.java:104-110 | a negative count fails as the StringBuilder does; otherwise the string has exactly count characters, each from the alphabet (a non-empty count on an empty alphabet fails) |
| TextProducers.TextProducerInternal.ReadRawWords | src/main/java/org/isf/generator/producer/text/TextProducerInternal.java:112-114 | between count and count + precision distinct picks of the list; a count beyond the list fails |
| TextProducers.TextProducerInternal.CleanWords | src/main/java/org/isf/generator/producer/text/TextProducerInternal.java:96-102 | count words picked from the list, each cleaned, joined by single spaces |
| TextProducers.TextProducerInternal.Sentence | src/main/java/org/isf/generator/producer/text/TextProducerInternal.java:128-140 | between wordCount and wordCount + 6 picked words, joined, capitalised and finished: the sentence ends with '.' |
| TextProducers.NewTextProducerInternal | src/main/java/org/isf/generator/producer/text/TextProducerInternal.java:69-77 | a missing lorem-ipsum, text or alphabet entry fails; otherwise the producer holds the catalog's three strings and the word lists split from them |
| TextProducers.TextProducer.constructor | src/main/java/org/isf/generator/producer/text/TextProducer.java:50-56 | the limit starts at 0 |
| TextProducers.TextProducer.LimitedTo | src/main/java/org/isf/generator/producer/text/TextProducer.java:58-61 | sets the limit and returns the same producer |
| TextProducers.TextProducer.Result | src/main/java/org/isf/generator/producer/text/TextProducer.java:63-68 | with no positive limit the text is returned whole, otherwise its first limit characters |
| TextProducers.TextProducer.ResultIdempotent | src/main/java/org/isf/generator/producer/text/TextProducer.java:63-68 | applying the limit twice is applying it once |
| TextProducers.TextProducer.Word | src/main/java/org/isf/generator/producer/text/TextProducer.java:82-84 | count cleaned words from the text, joined and cut to the limit |
| TextProducers.TextProducer.DefaultWord | src/main/java/org/isf/generator/producer/text/TextProducer.java:78-80 | three cleaned words, joined and cut to the limit |
| TextProducers.TextProducer.Sentence | src/main/java/org/isf/generator/producer/text/TextProducer.java:106-108 | a finished sentence cut to the limit |
| TextProducers.TextProducer.Sentences | src/main/java/org/isf/generator/producer/text/TextProducer.java:110-116 | a negative count is the ArrayList's "Illegal Capacity: " error with the count; otherwise exactly sentenceCount sentences, each ending with '.' when no limit applies |
| TextProducers.TextProducer.Paragraph | src/main/java/org/isf/generator/producer/text/TextProducer.java:122-125 | sentenceCount plus one to three sentences joined by spaces and cut to the limit |
| TextProducers.TextProducer.RandomString | src/main/java/org/isf/generator/producer/text/TextProducer.java:133-135 | the random string ignores the limit: exactly charsCount alphabet characters |
| TextUtils.JoinWithSpaceLength | src/main/java/org/isf/generator/producer/util/TextUtils.java:33-35 | the joined text is as long as the parts together plus one space between each pair |
| TextUtils.JoinWithSpaceSpaces | src/main/java/org/isf/generator/producer/util/TextUtils.java:33-35 | parts without spaces join into a text with exactly one space fewer than parts |
| TextUtils.StripSharpS | src/main/java/org/isf/generator/producer/util/TextUtils.java:42-44 | no ß remains and each ß lengthens the text by one |
| TextUtils.StripSharpSIdempotent | src/main/java/org/isf/generator/producer/util/TextUtils.java:42-44 | stripping ß twice is stripping it once |
| TextUtils.StripAccents | src/main/java/org/isf/generator/producer/util/TextUtils.java:37-40 | no ł or Ł remains after the accents are stripped |
| TextUtils.StripAccentsOnlyStrokes | src/main/java/org/isf/generator/producer/util/TextUtils.java:37-40 | the stroke replacement keeps the length of the library's result and changes nothing when it has no stroke |
| TextUtils.Clean | src/main/java/org/isf/generator/producer/person/EmailProvider.java:63 | an e-mail cleaned by both steps holds no ß, ł or Ł |
| ZhId.BasicDate | src/main/java/org/isf/generator/producer/person/locale/zh/ZhNationalIdentityCardNumberProvider.java:44 | the yyyyMMdd form of a date with a four-digit year is eight digits |
| ZhId.Get | src/main/java/org/isf/generator/producer/person/locale/zh/ZhNationalIdentityCardNumberProvider.java:55-69 | the number is a province code, two-digit city and district codes in range, the yyyyMMdd of a birth date from the last fifty years, and a four-digit order number from 0001 |
| ZhUtil.ProvinceCodes | src/main/java/org/isf/generator/producer/util/ZhGeneratorUtil.java:34-67 | the 33 province codes are each two digits |
| ZhUtil.GetRandomNumStr | src/main/java/org/isf/generator/producer/util/ZhGeneratorUtil.java:86-93 | the number is drawn from 1..max and left-padded with zeros to the padding size; a max below 1 is an error |
| ZhUtil.PaddedNumber | src/main/java/org/isf/generator/producer/util/ZhGeneratorUtil.java:88-91 | the padded text is all digits, reads back as the number, and is as long as the padding size or the number's own length, whichever is larger |
| ZhVat.VatCharLeavesAlphabet | src/main/java/org/isf/generator/producer/company/locale/zh/ZhVATIdentificationNumberProvider.java:48-54 | although the class comment promises 0-9A-Z, a draw of 9 gives ':', outside 0-9A-Z, and no draw gives '0' |
| ZhVat.VatCharBijective | src/main/java/org/isf/generator/producer/company/locale/zh/ZhVATIdentificationNumberProvider.java:48-54 | the 36 draws give 36 distinct characters, and together they are exactly '1'-'9', ':' and 'A'-'Z' |
| ZhVat.GetChar | src/main/java/org/isf/generator/producer/company/locale/zh/ZhVATIdentificationNumberProvider.java:48-54 | getChar returns the character of one draw in 0..35: code 49 plus the draw below 10, 'A' onwards above |
| ZhVat.GetChars | src/main/java/org/isf/generator/producer/company/locale/zh/ZhVATIdentificationNumberProvider.java:56-62 | exactly paddingSize characters (none for a non-positive size), each in the alphabet '1'-'9', ':', 'A'-'Z' |
| ZhVat.Get | src/main/java/org/isf/generator/producer/company/locale/zh/ZhVATIdentificationNumberProvider.java:39-46 | fifteen characters: a province code, city and district codes in range, and nine characters of getChar's alphabet |

## Left out

- Guice wiring, the `Generator` facade, the database driver `Generate.java` and the YAML/classpath reading in `MapBasedDataMaster.readResources`: these are dependency injection and I/O. Only the locale modules' binding tables are kept, as data in `Registry`.
- The clock (`LocalDateTime.now()`, `TimeProvider`) is the parameter `now` or `today`.
- The hospital's managers (diseases, wards, admission and discharge types) are a `HospitalVisits.HospitalData` parameter. Their records are reduced to their codes. Failed lookups and null lists are not modelled.
- `allOtherDiseases` is loaded by the source but never used, so it is only a field of `HospitalData`.
- HospitalVisitProviders.DefaultHospitalVisitProvider.GenerateDisease: if the maternal pick succeeds but the group draw then throws, Java keeps the maternal disease in the field. The model leaves the field unset. `get()` fails either way.
- RandomGenerator over commons-math, and BaseProducer, which is not part of this model: both are the draw sequence of `Random.RandomSource`. Seed determinism and the exact name and city test vectors depend on the JDK generator and the YAML data. `nextDouble` is floating point.
- Unseeded `RandomStringUtils`/`randomNumeric` draws are parameters of the operations that use them:
  - the `digits`, `five` and `numeric` strings;
  - `PersonProviders.Supplied`, which also carries the outputs of the password, identity-card, passport, address and VAT providers that `DefaultPersonProvider` calls.
- iban4j's BBAN layout and the ISO 7064 MOD 97-10 check digits: a foreign library. `Iban` models only the country-code choice and the control flow of `get()`.
- `StringUtils.stripAccents`, and the Splitter/capitalize/Joiner sentence capitalisation in TextProducer, are function parameters. `StringEscapeUtils.escapeJava` follows commons-text's ESCAPE_JAVA rules, written out in `Companies`. Upper- and lower-casing are ASCII only.
- Network.Url: Dafny characters cannot be surrogates, so the host text is required to stay below U+D800 after the shift the source applies. The IP address is a parameter, because IPNumberProducer is not part of this model.
- LanguageCode.java is not part of this model. The language codes are the enum names, as strings.
- TextProducer's `latinWord`, `latinSentence`, `loremIpsum()` and `text()`: each is the corresponding internal operation applied to the Latin word list, or a plain getter. They are modelled once, on a word-list parameter.
- `PersonProperties.withOccupation` calls a `setOccupation` that the provider interface does not declare. It is not modelled.
- The catalog key `PARENTS_ALIVE` is used by DefaultPersonProvider but declared nowhere in the source. It is a constructor parameter of the provider (`parentsAliveKey`).
- `DefaultPersonProvider.get` passes `motherAlive` and `fatherAlive` to a Person constructor that has no such parameters. `Persons.Person` has the fields of Person.java, and the two values stay in the provider's draft.
- Null arguments to setters and overrides are not modelled (`None` stands only for fields the source leaves unset). Java's `int` overflow and `LocalDate`'s year range are not modelled either: years and ages are unbounded integers.
- The SV national identity card provider and the one-line SV factory: an unseeded `randomNumeric(8)` and a constructor call.
- Loops that draw until they hit an acceptable value (the EN SSN and EIN area numbers) have no bound in the source. The model takes as a ghost parameter the index of the draw at which such a loop stops, and requires that this draw is acceptable.
- PersonProviders.DefaultPersonProvider.GenerateDateOfBirth: draws from the corrected window, not from the window as written (see Findings).
- PersonProviders.DrawBirth: draws from the corrected window (`BirthWindows.EarliestBirth`), not from `maxDate.minusYears(1).plusDays(1)` as written. On 29 February the written window also admits one date that is `age + 1` whole years back (see Findings).
- PersonProviders.DefaultPersonProvider.Get: its guarantee that the date of birth lies exactly `age` whole years back rests on DrawBirth's corrected window. As written, it fails on 29 February for the one extra date (`BirthWindows.EarliestBirthAsWrittenOverreaches`). Off 29 February the two windows coincide (`BirthWindows.WindowsAgreeOffLeapDay`).
- Catalog.AsString: a null list item (a YAML `~`) is a NullPointerException here. In Java the String cast lets null through, and the caller turns it into the text "null" or throws where it dereferences it.
- Catalog.DataMaster.GetRandomValue: fails on a null list item where getRandomValue returns null (see Catalog.AsString).
- PersonProviders.DrawTypedString: fails on a null list item where getValuesOfType returns null (see Catalog.AsString).
- Chars.JavaDigit and Chars.NumericValue: only the ASCII digits and letters are recognised. Character.digit and Character.getNumericValue also give values for other Unicode digits and numerals, such as fullwidth '１' (1) or 'Ⅻ' (12). The validators built on them (Pesel, PlPassport, SvPersonalNumber, SvVat) are modelled only for ASCII input.
- TextProducers.Left and TextProducers.TextProducer.Result: they cut at characters, where Java's substring cuts at UTF-16 units. The two agree for text within the Basic Multilingual Plane. The domain cut in `Companies.CutEscaped` does count UTF-16 units (`Chars.Utf16Length`).
- ZhId.Get: requires the birth year drawn from the last fifty years to have at most four digits, that is, `now` before the year 10000, and the current year after the year 50, so that the birth year is at least 1.
- The locale's national identification number provider, which DefaultPersonProvider calls, is the function parameter `nin` of the provider. The providers themselves are modelled in `Pesel`, `SvPersonalNumber`, `SwNin` and `NoNin`.

## Findings

| source | as written | input that shows it | evidently intended | confidence | as-written member | corrected member |
|---|---|---|---|---|---|---|
| src/main/java/org/isf/generator/producer/person/DefaultPersonProvider.java:243-245 | the birth window starts at `maxDate.minusYears(1).plusDays(1)`, where `maxDate` is today minus `age` years | today 2024-02-29 and age 3: `maxDate` is 2021-02-28 and the window starts at 2020-02-29, which is 4 whole years before today | every date in the window lies exactly `age` whole years before today, so generateAge run on it gives back `age` | not executed | BirthWindows.EarliestBirthAsWrittenOverreaches | BirthWindows.AgeOfBirthInWindow |

# CordexApp Site: a Dafny model of the front end's decision logic

CordexApp's Site is a Next.js/wagmi front end for launching API services on chain. A launch creates a provider contract, a provider token and a bonding curve. The site also lets users trade on the bonding curve and buy API-access tokens. Its repository also ships a small Python script that probes the chart API's response time.

This project models the part of that code that decides things. It covers:
- decoding the factory's deployment event;
- the input validators and formatters;
- the read-contract API route;
- the market-cap cache;
- the bonding-curve deposit and allowance arithmetic;
- the transaction state machines of the deploy, approve, activate, generate-token and withdraw flows;
- the service list's batched market-cap refresh;
- the price chart's candle buffer;
- the typing animation's stepper;
- the latency classifier of `test_chart_performance.py`.

Every remote call (RPC reads and writes, receipts, `fetch`) is a parameter of the model. A call that can fail is a `Result` or `Option`, so every error path is a branch of the model.

Layout, one module per source file plus shared helpers:
- `Wrappers`: Option and Result.
- `JsString`: the JavaScript string operations used (`slice`, `indexOf`, `split`, ASCII `toLowerCase`, `trim`).
- `Decimal`: decimal digits, `toString` and parsing of naturals.
- `EtherFormat`: viem's `formatEther`/`formatUnits`.
- `Address`: the zero address and the filter that maps it to null.

State the source keeps in React hooks or refs is a Dafny `class`. Each effect and handler is a `method` whose `ensures` gives the whole new state. Pure derivations are functions whose contracts, and the lemmas beside them, state what the source promises.

## Model

| member | source | states |
|---|---|---|
| Address.NullIfZero | src/services/bondingCurveServices.ts:145-148 | an address read yields Some exactly when it returned a non-zero address, and then that address |
| ContractServices.ExtractContractAddressFromReceipt | src/services/contractServices.ts:34-85 | absent logs give both addresses undefined; otherwise the result is the fold over the logs in which each qualifying log overwrites the result |
| ContractServices.Qualifies | src/services/contractServices.ts:49-63 | the loop's three guards: a log address equal to the factory's ignoring case, at least one topic, and non-empty data |
| ContractServices.DecodeData | src/services/contractServices.ts:67-85 | both addresses are set, each "0x" followed by at most 40 characters of the data |
| ContractServices.ExtractFrom | src/services/contractServices.ts:47-85 | the result is empty or the decoding of some qualifying log's data |
| ContractServices.LastQualifyingWins | src/services/contractServices.ts:47-85 | when several factory logs qualify, the decoded data of the last one is the result |
| ContractServices.SetIffSomeLogQualifies | src/services/contractServices.ts:49-63 | the result is not empty iff some log comes from the factory (case-insensitive), has a topic and has data |
| ContractServices.OtherLogsIgnored | src/services/contractServices.ts:49-52 | inserting a non-qualifying log anywhere leaves the result unchanged |
| ContractServices.DecodeEncodedEvent | src/services/contractServices.ts:67-85 | decoding data built from two left-padded 32-byte address words gives back both addresses: chars 24..64 and 88..128 after the "0x" |
| ContractServices.GetProviderContractAddress | src/services/contractServices.ts:159-180 | Some exactly when the read returned a non-empty, non-zero address; no client or a thrown read gives null |
| BondingCurveServices.GetBondingCurveContract | src/services/bondingCurveServices.ts:123-160 | null for no client, a thrown read or the zero address, else the returned address |
| BondingCurveServices.GetProviderTokenAddressFromBondingCurve | src/services/bondingCurveServices.ts:345-370 | null for no client, a thrown read or the zero address, else the returned address |
| BondingCurveServices.FormatAmount | src/services/bondingCurveServices.ts:163-171 | `formatAmount`: `formatEther` cut to two fractional characters; its meaning is stated by FormatAmountTruncates |
| BondingCurveServices.FormatAmountTruncates | src/services/bondingCurveServices.ts:163-171 | the formatted amount is a prefix of `formatEther`: the integer part and at most two fractional digits, truncated; a string with no '.' is returned unchanged |
| BondingCurveServices.FindBondingCurveForProviderToken | src/services/bondingCurveServices.ts:173-258 | no client, a failed or empty curve list or a failed batch give null; otherwise the loop returns the first curve in list order whose call succeeded with the target token, ignoring case |
| BondingCurveServices.FirstMatchSound | src/services/bondingCurveServices.ts:225-241 | a found curve is a member of the list at an index whose call succeeded and matched, and no earlier index matched |
| BondingCurveServices.FirstMatchComplete | src/services/bondingCurveServices.ts:225-258 | whenever some curve matches, the lookup is not null |
| BondingCurveServices.GetMaxSellableAmount | src/services/bondingCurveServices.ts:464-497 | min(contract value, user balance), ignoring the available liquidity; 0 with no client or on error |
| BondingCurveServices.GetCurrentPrice | src/services/bondingCurveServices.ts:270-286 | the price formatted with `formatEther`, or "0" with no client or on error |
| EtherFormat.IntegerPart | src/hooks/useBondingCurveSetup.ts:317-325 | the text before the first '.' of `formatEther(v)` is the sign followed by the decimal string of abs(v) div 10^18 |
| EtherFormat.FormatUnitsParts | src/hooks/useBondingCurveSetup.ts:317-325 | `formatUnits` is the sign, the integer quotient and, when non-zero, '.' followed by the fraction with trailing zeros removed |
| EtherFormat.FractionValue | src/hooks/useBondingCurveSetup.ts:317-325 | the fraction digits, padded back with zeros to 18 places, spell the remainder abs(v) mod 10^18 |
| EtherFormat.FormatUnits | src/hooks/useBondingCurveSetup.ts:317-325 | viem's `formatUnits`: sign, integer part padded to at least "0", and the trimmed fraction; FormatUnitsParts states its meaning |
| EtherFormat.FormatEther | src/hooks/useBondingCurveSetup.ts:317-325 | `formatUnits` with 18 decimals |
| ReadContractRoute.Convert | src/app/api/read-contract/route.ts:12-24 | a bigint becomes its decimal string; an array becomes the array of its converted elements, same length and order; an object keeps its keys in order, each with its converted value; every other value is returned as it is |
| ReadContractRoute.ConvertRemovesBigInts | src/app/api/read-contract/route.ts:12-24 | no bigint remains anywhere in a converted value |
| ReadContractRoute.ConvertKeepsBigIntFree | src/app/api/read-contract/route.ts:17-24 | a value holding no bigint is returned unchanged |
| ReadContractRoute.ConvertFixedPoints | src/app/api/read-contract/route.ts:12-24 | a value is left unchanged by the conversion exactly when it holds no bigint, so converting twice is converting once |
| ReadContractRoute.ParseArg | src/app/api/read-contract/route.ts:56-71 | an "0x" string of length 42 is checksummed, or kept raw if invalid; otherwise an integer literal matching `^-?\d+$` is a bigint; anything else is the raw string |
| ReadContractRoute.IsIntegerLiteral | src/app/api/read-contract/route.ts:66 | the `/^-?\d+$/` test: an optional '-' followed by at least one digit |
| ReadContractRoute.ParseIntegerLiteral | src/app/api/read-contract/route.ts:67 | `BigInt(arg)` of such a literal, non-positive exactly under a leading '-' sign and non-negative otherwise |
| ReadContractRoute.ParseArgIntRoundTrip | src/app/api/read-contract/route.ts:66-68 | the decimal text of any integer parses back to that integer |
| ReadContractRoute.ParseArgs | src/app/api/read-contract/route.ts:53-72 | no or empty `args` gives []; otherwise one parsed value per ','-separated piece, in order |
| ReadContractRoute.SelectAbi | src/app/api/read-contract/route.ts:79-128 | the ABI fragment for each known function name, and no inputs with a bytes output for any other name |
| ReadContractRoute.PrepareRead | src/app/api/read-contract/route.ts:34-72 | a missing or empty address or function name gives the fixed message; an address `getAddress` rejects gives "Invalid address format"; otherwise exactly the read of the checksummed address, with the ABI selected by the function name, that name, and the parsed arguments |
| ReadContractRoute.Get | src/app/api/read-contract/route.ts:27-151 | the status is 400 exactly on a validation error, 500 exactly when the read throws, else 200 with a bigint-free converted result; a 500 carries the thrown error's message, or "Unknown error" |
| MarketCapUtils.Lookup | src/utils/marketCapUtils.ts:39-46 | a hit iff an entry exists and now minus its timestamp is strictly below 300000; a hit returns the stored data |
| MarketCapUtils.CacheKey | src/utils/marketCapUtils.ts:39 | the lower-cased address: same length, already in lower case |
| MarketCapUtils.FreshDetails | src/utils/marketCapUtils.ts:50-87 | no provider token gives empty details; a failed decimals read is an error; otherwise the total supply is always "1000000", with the token, decimals and price filled in |
| MarketCapUtils.PartialDetails | src/utils/marketCapUtils.ts:96-108 | the catch result keeps the token address and leaves every other field, the market cap included, undefined |
| MarketCapUtils.MarketCapCache.FetchAndCalculateMarketCap | src/utils/marketCapUtils.ts:29-109 | a missing client or address returns null and leaves the cache alone; a hit returns the cached data; a fresh fetch stores the details under the lowercased key with the call's start time; an exception returns partial data and stores nothing |
| MarketCapUtils.SharedEntryAcrossCase | src/utils/marketCapUtils.ts:39 | addresses differing only in letter case share one cache entry until it expires |
| MarketCapUtils.EntryExpires | src/utils/marketCapUtils.ts:16-46 | an entry stops hitting once 300000 ms have passed |
| BondingCurveSetup.InitialAmount | src/hooks/useBondingCurveSetup.ts:298-313 | balance × pct / 100 truncated toward zero: within one unit of the exact value, negative for a negative pct, and at most the balance for pct in [0, 100] |
| BondingCurveSetup.BufferedAmount | src/hooks/useBondingCurveSetup.ts:279-282 | the amount plus 5 % of it truncated toward zero: never below the amount when it is non-negative, and never above it when it is negative |
| BondingCurveSetup.DigitCount | src/hooks/useBondingCurveSetup.ts:278 | the length of the leading run of decimal digits |
| BondingCurveSetup.PercentValue | src/hooks/useBondingCurveSetup.ts:278-279 | `BigInt(Number(percentage \|\| "0"))`: the empty text reads 0; a value is read only from text whose characters after the first are digits and '.'; a negative value only under a leading '-' |
| BondingCurveSetup.ReadMagnitude | src/hooks/useBondingCurveSetup.ts:278-279 | the unsigned number `Number` reads and `BigInt` accepts is read only from digits and '.' |
| BondingCurveSetup.PercentOfIntegerText | src/hooks/useBondingCurveSetup.ts:278-279 | the decimal text of every integer, alone or followed by '.' and zeros, reads as that integer (negatives included) |
| BondingCurveSetup.PercentFractionThrows | src/hooks/useBondingCurveSetup.ts:278-279 | the text of any integer followed by '.' and a fraction with a non-zero digit makes `BigInt` throw |
| BondingCurveSetup.TruncDiv | src/hooks/useBondingCurveSetup.ts:279 | BigInt division: the quotient truncated toward zero, bounded on both sides for either sign |
| BondingCurveSetup.AllowanceEnough | src/hooks/useBondingCurveSetup.ts:312-315 | `allowanceEnough`: the allowance covers the derived initial amount |
| BondingCurveSetup.WholeEthers | src/hooks/useBondingCurveSetup.ts:317 | the text before the first '.' of `formatEther`; its meaning is stated by WholeEthersIsDiv |
| BondingCurveSetup.AllowanceDisplay | src/hooks/useBondingCurveSetup.ts:322-325 | "Unlimited" above the threshold, else the whole ethers; its meaning is stated by AllowanceDisplayMeaning |
| BondingCurveSetup.WholeEthersIsDiv | src/hooks/useBondingCurveSetup.ts:317-320 | the displayed balance is the decimal string of balance div 10^18 |
| BondingCurveSetup.AllowanceDisplayMeaning | src/hooks/useBondingCurveSetup.ts:322-325 | "Unlimited" iff allowance > 2^256 − 1 − 10^25, otherwise allowance div 10^18 |
| BondingCurveSetup.ApprovalCoversDeploy | src/hooks/useBondingCurveSetup.ts:275-315 | an allowance of at least the buffered approve amount passes `allowanceEnough` for any balance and percentage no larger than those approved for |
| BondingCurveSetup.Setup.constructor | src/hooks/useBondingCurveSetup.ts:62-76 | no token, percentage text "50", zero balance and allowance, no curve found, not checking, idle status and action |
| BondingCurveSetup.Setup.SetPercentage | src/hooks/useBondingCurveSetup.ts:69 | the percentage text is stored as typed, nothing else changes |
| BondingCurveSetup.Setup.OnExistenceCheck | src/hooks/useBondingCurveSetup.ts:98-165 | a curve found for the token records it, selects its token and sets "success"; a readable token with no curve only selects the token; a failed or empty token read changes nothing (the curve search answers null rather than throwing); the checking flag is false afterwards |
| BondingCurveSetup.Setup.OnBalance | src/hooks/useBondingCurveSetup.ts:168-193 | the balance read replaces the token balance; a failed read (caught and logged) or a missing token, wallet or client leaves it unchanged |
| BondingCurveSetup.Setup.OnAllowance | src/hooks/useBondingCurveSetup.ts:196-208 | with a token, wallet and client the allowance becomes the read value, or 0 when the read fails (`getTokenAllowance`, src/services/bondingCurveServices.ts:74-92, answers 0); without them it is unchanged |
| BondingCurveSetup.Setup.RefreshAllowance | src/hooks/useBondingCurveSetup.ts:259-272 | the same update as the allowance effect: the read value, or 0 when the read fails, and no change without a token, wallet or client |
| BondingCurveSetup.Setup.OnWriteData | src/hooks/useBondingCurveSetup.ts:215-221 | a new hash is recorded, and the status becomes "approving" or "deploying" according to the current action; no other field changes |
| BondingCurveSetup.Setup.OnWriteError | src/hooks/useBondingCurveSetup.ts:224-229 | any write error sets "error"; only the status changes |
| BondingCurveSetup.Setup.OnReceipt | src/hooks/useBondingCurveSetup.ts:232-254 | success gives "approved" under approve and "success" under deploy; a revert gives "error" whatever the action; only the status changes |
| BondingCurveSetup.Setup.RecheckTxHash | src/hooks/useBondingCurveSetup.ts:245-249 | the hash gets the "-recheck" suffix, or stays undefined |
| BondingCurveSetup.Setup.HandleApprove | src/hooks/useBondingCurveSetup.ts:275-292 | a no-op without a provider token; a percentage text that is not an integer throws before any state changes; otherwise the action becomes approve and the buffered amount is approved |
| BondingCurveSetup.Setup.HandleDeploy | src/hooks/useBondingCurveSetup.ts:294-307 | a no-op without a provider token; a percentage text that is not an integer throws before any state changes; otherwise the action becomes deploy with the initial amount, slope 10^14 and intercept 10^16 |
| BondingCurvePage.Page.constructor | src/app/bonding-curve/page.tsx:26-38 | idle, no hashes, no allowance, empty error |
| BondingCurvePage.Page.OnAllowanceData | src/app/bonding-curve/page.tsx:167-171 | `hasAllowance` becomes allowance > 0 whenever the allowance is defined |
| BondingCurvePage.Page.OnWriteData | src/app/bonding-curve/page.tsx:174-188 | a hash is watched; it becomes the deployment hash while "pending" and clears it while "approving" |
| BondingCurvePage.Page.OnWriteError | src/app/bonding-curve/page.tsx:191-197 | a write error sets "error" with its message, or "Transaction failed" |
| BondingCurvePage.Page.OnReceipt | src/app/bonding-curve/page.tsx:215-250 | ignored unless "pending" or "approving"; approval success gives "idle"; a deploy success gives "success" only when the hash matches the deployment hash and otherwise stays "pending"; a revert gives "error" |
| BondingCurvePage.Page.ApproveTokens | src/app/bonding-curve/page.tsx:253-265 | sets "approving", clears the error and approves maxUint256 to the factory |
| BondingCurvePage.Page.DeployBondingCurve | src/app/bonding-curve/page.tsx:268-290 | an undefined or zero allowance gives "error" and no write; otherwise "pending" and a deploy of the allowance with slope 10^12 and intercept 10^16 |
| BondingCurvePage.Page.HandleSubmit | src/app/bonding-curve/page.tsx:292-312 | a missing token only sets the message; an allowance > 0 deploys; anything else approves |
| DeployBondingCurvePage.CalculatedAmount | src/app/deploy-bonding-curve/page.tsx:35-46 | positive iff the balance is positive and 0 < pct ≤ 100; it is then balance × pct / 100 and at most the balance; otherwise 0 |
| DeployBondingCurvePage.PercentBounds | src/app/deploy-bonding-curve/page.tsx:43 | a percentage in (0, 100] of a positive balance is positive and at most the balance |
| DeployBondingCurvePage.NeedsApproval | src/app/deploy-bonding-curve/page.tsx:395 | `needsApproval`: a required amount that is not positive, an unknown allowance or one below the requirement |
| DeployBondingCurvePage.HasSufficientBalance | src/app/deploy-bonding-curve/page.tsx:396 | `hasSufficientBalance`: a known balance of at least the requirement |
| DeployBondingCurvePage.CanProceed | src/app/deploy-bonding-curve/page.tsx:397 | `canProceed`: a positive requirement with sufficient balance; ApproveEnabledIffAccepted ties it to the approve guard |
| DeployBondingCurvePage.ApproveRejection | src/app/deploy-bonding-curve/page.tsx:274-285 | approval is accepted iff there is a token and 0 < amount ≤ balance |
| DeployBondingCurvePage.DeployRejection | src/app/deploy-bonding-curve/page.tsx:321-341 | deployment is accepted iff there is a token, required > 0, allowance ≥ required and required ≤ balance |
| DeployBondingCurvePage.ApproveEnabledIffAccepted | src/app/deploy-bonding-curve/page.tsx:395-397 | the approve button is enabled exactly when approval would be accepted |
| DeployBondingCurvePage.DeployEnabledImpliesAccepted | src/app/deploy-bonding-curve/page.tsx:467-502 | on the ready-to-deploy panel with its button enabled, the deploy guard accepts |
| DeployBondingCurvePage.SelectPanel | src/app/deploy-bonding-curve/page.tsx:404-510 | each of the six panels is shown exactly under its own condition: success, error, deploying, approving, the deploy form when approved with no approval needed, and otherwise the approval form |
| DeployBondingCurvePage.DeployButtonLabel | src/app/deploy-bonding-curve/page.tsx:497-505 | the insufficient-balance text shows iff the balance is missing or below the requirement; "enter valid amount" iff the balance suffices but the requirement is not positive; the deploy label iff `canProceed` |
| DeployBondingCurvePage.ApproveButtonLabel | src/app/deploy-bonding-curve/page.tsx:539-547 | the insufficient-balance text shows iff the balance is missing or below the requirement; "enter valid amount" iff the balance suffices but the requirement is not positive; the approve label iff `canProceed` |
| DeployBondingCurvePage.Page.constructor | src/app/deploy-bonding-curve/page.tsx:21-32 | pct 50, zero balance and allowance, idle, no hash, empty error |
| DeployBondingCurvePage.Page.OnData | src/app/deploy-bonding-curve/page.tsx:153-177 | balance and allowance are stored in ether (a zero balance read leaves the balance); the status is judged against the requirement of the render's memo, computed from the balance before the read: enough allowance for a positive requirement moves "idle" or "approving" to "approved", "approved" without it goes back to "idle"; the re-run after a balance change is a second call |
| DeployBondingCurvePage.Page.OnWriteData | src/app/deploy-bonding-curve/page.tsx:187-192 | a new hash is recorded |
| DeployBondingCurvePage.Page.OnWriteError | src/app/deploy-bonding-curve/page.tsx:195-205 | an error sets "error" with its message, but never overwrites "success" |
| DeployBondingCurvePage.Page.OnReceipt | src/app/deploy-bonding-curve/page.tsx:213-266 | a receipt for another hash is ignored; success while "approving" refetches the allowance; success while "deploying" gives "success"; a revert gives "error" unless already "success" |
| DeployBondingCurvePage.Page.ApproveTokens | src/app/deploy-bonding-curve/page.tsx:269-307 | a rejected amount sets "error" with no write; otherwise "approving", a cleared error and an approve of the amount |
| DeployBondingCurvePage.Page.DeployBondingCurve | src/app/deploy-bonding-curve/page.tsx:310-367 | a rejected deployment sets "error" with no write; otherwise "deploying" and a deploy with slope 10^14 and intercept 10^16 |
| DeployBondingCurvePage.Page.OnAmountOrAllowanceChange | src/app/deploy-bonding-curve/page.tsx:370-380 | "approved" with a non-positive or uncovered requirement goes back to "idle"; nothing else changes |
| DeployBondingCurvePage.Page.TryAgain | src/app/deploy-bonding-curve/page.tsx:611-617 | resets to "idle", an empty error and no hash |
| ServiceDeployment.MessageOr | src/hooks/useServiceDeployment.ts:72-81 | the error's message, or the default when it has none; never empty |
| ServiceDeployment.Deployment.constructor | src/hooks/useServiceDeployment.ts:17-43 | both statuses idle, no hash, no addresses, no action, not registered |
| ServiceDeployment.Deployment.DeployService | src/hooks/useServiceDeployment.ts:150-170 | the action becomes deploy; status, error, hash, addresses and `isRegistered` are reset |
| ServiceDeployment.Deployment.OnWriteData | src/hooks/useServiceDeployment.ts:55-66 | a hash sets "pending" on the status of the current action |
| ServiceDeployment.Deployment.OnWriteError | src/hooks/useServiceDeployment.ts:72-81 | an error sets "error" on the current action's status, with its message or the default |
| ServiceDeployment.Deployment.OnReceipt | src/hooks/useServiceDeployment.ts:187-282 | a deploy receipt counts only while deploying and "pending": success with an extracted address gives "success", without one "error", a revert "error"; an activation receipt gives "success" iff it succeeded |
| ServiceDeployment.Deployment.AutoRegister | src/hooks/useServiceDeployment.ts:290-310 | registration is requested only after a successful deploy with details and a provider contract, when not yet registered; backend success sets `isRegistered` |
| ServiceDeployment.Deployment.ActivateContract | src/hooks/useServiceDeployment.ts:333-342 | an empty address is a no-op; otherwise action activate, status "pending", error and hash cleared |
| ServiceDeployment.DeploySucceedsIffEventFound | src/hooks/useServiceDeployment.ts:234-258 | the deploy receipt's extraction is non-empty iff some log qualifies |
| ApiTokenGeneration.MessageOf | src/hooks/useApiTokenGeneration.ts:115-126 | an Error's message, or the default for any other thrown value |
| ApiTokenGeneration.SimulatedTokenHash | src/hooks/useApiTokenGeneration.ts:98-100 | "0x" followed by 64 '0' characters |
| ApiTokenGeneration.TokenGeneration.constructor | src/hooks/useApiTokenGeneration.ts:17-25 | the initial token record |
| ApiTokenGeneration.TokenGeneration.OnPendingChange | src/hooks/useApiTokenGeneration.ts:44-57 | `isPending` mirrors the write hook; becoming pending clears the error |
| ApiTokenGeneration.TokenGeneration.OnHash | src/hooks/useApiTokenGeneration.ts:61-70 | a hash is recorded as `transactionHash` |
| ApiTokenGeneration.TokenGeneration.OnConfirmingChange | src/hooks/useApiTokenGeneration.ts:74-86 | `isConfirming` mirrors the receipt wait |
| ApiTokenGeneration.TokenGeneration.OnConfirmed | src/hooks/useApiTokenGeneration.ts:91-110 | success with a receipt sets `isSuccess`, the simulated token hash and `isGenerating` false |
| ApiTokenGeneration.TokenGeneration.OnWriteError | src/hooks/useApiTokenGeneration.ts:115-126 | a write error sets its message, or "Transaction failed", and ends generating |
| ApiTokenGeneration.TokenGeneration.GenerateToken | src/hooks/useApiTokenGeneration.ts:132-165 | starts generating with error, token hash and success cleared; the escrow defaults to "0.0001"; a throw records its message and stops generating |
| ApiTokenGeneration.TokenGeneration.ResetToken | src/hooks/useApiTokenGeneration.ts:168-178 | restores exactly the initial record |
| MyContracts.TextOr | src/hooks/useMyContracts.ts:270-285 | a read's text, or the default |
| MyContracts.AmountOr0 | src/hooks/useMyContracts.ts:270-285 | a read's amount, or 0 |
| MyContracts.FlattenTokenDetails | src/hooks/useMyContracts.ts:266-290 | one token per address, in order, entry i built from slots 3i, 3i+1 and 3i+2 with the defaults "Unknown Token", "???" and 0 |
| MyContracts.CurveDetails | src/hooks/useMyContracts.ts:341-396 | a zero token address gives "Invalid Token Address"/"ERR"/"0"; a failed token read gives "Error Loading Name"/"ERR"/"Error"; otherwise the read values |
| MyContracts.RevertReason | src/hooks/useMyContracts.ts:541-545 | the text inside the first pair of quotes after "execution reverted", or "Contract execution failed" |
| MyContracts.ClassifyWriteError | src/hooks/useMyContracts.ts:537-548 | "rejected" or "denied" gives the rejection text, iff; else "insufficient funds" the funds text; else "execution reverted" the reason; else "Error: " + message |
| MyContracts.ErrorTextIsNotRejection | src/hooks/useMyContracts.ts:537-548 | the fallback text can never be mistaken for the rejection text |
| MyContracts.ClassifiedIsErrorText | src/hooks/useMyContracts.ts:537-548 | every classified message is one of the four fixed forms |
| MyContracts.Contracts.constructor | src/hooks/useMyContracts.ts:173-185 | idle, empty messages and lists, counter 0 |
| MyContracts.Contracts.RefreshData | src/hooks/useMyContracts.ts:186-193 | "idle", both messages empty, no hash or selected curve, counter incremented |
| MyContracts.Contracts.ProcessTokenDetails | src/hooks/useMyContracts.ts:265-295 | the token list is built only when the data has 3 × the addresses' length; a mismatch while not loading empties it |
| MyContracts.Contracts.FetchCurveDetails | src/hooks/useMyContracts.ts:301-412 | missing inputs give an empty list; a failed read gives an empty list and the failure message; otherwise one entry per curve, in order |
| MyContracts.Contracts.OnWriteData | src/hooks/useMyContracts.ts:467-472 | a new hash is recorded |
| MyContracts.Contracts.OnTransactionResult | src/hooks/useMyContracts.ts:488-526 | handled only with a hash while "executing"; success ends in "idle" with empty messages, because the refresh runs right after; a failure gives "error" |
| MyContracts.Contracts.OnWriteError | src/hooks/useMyContracts.ts:530-555 | handled only while "executing": the classified message is shown and the hash is dropped |
| MyContracts.Contracts.WithdrawFees | src/hooks/useMyContracts.ts:557-584 | disconnected only sets an error message; otherwise "executing" and a write, even with zero fees |
| TokenDashboard.AllowanceKey | src/hooks/useTokenDashboard.ts:143-144 | buy keys start with "buyAllowance-" and sell keys with "sellAllowance-" |
| TokenDashboard.SidesNeverShareKey | src/hooks/useTokenDashboard.ts:143-194 | a buy key and a sell key are never equal |
| TokenDashboard.ChooseTimeframe | src/hooks/useTokenDashboard.ts:325-332 | the current timeframe is kept when the list is empty or contains it; otherwise the choice is in the list (its first entry) |
| TokenDashboard.TokenWord | src/hooks/useTokenDashboard.ts:822 | the lowercased symbol, or "tokens" |
| TokenDashboard.TradeIsMine | src/hooks/useTokenDashboard.ts:547-551 | the trade's user and the wallet are both present and equal ignoring case |
| TokenDashboard.TradeIsMineSymmetric | src/hooks/useTokenDashboard.ts:547-556 | the case-insensitive user/wallet match is symmetric |
| TokenDashboard.Dashboard.constructor | src/hooks/useTokenDashboard.ts:78-116 | initial trading states, no messages, empty chart on "1h", curve info "0"/"0"/null and no balance |
| TokenDashboard.Dashboard.RefreshTokenBalance | src/hooks/useTokenDashboard.ts:202-227 | without client, wallet or token, or on a failed read, the balance is unchanged; otherwise it is the read formatted with `formatEther` |
| TokenDashboard.Dashboard.RefreshBondingCurveInfo | src/hooks/useTokenDashboard.ts:230-314 | a no-op without client or curve; otherwise the curve info is the price, the formatted supply and the cordex address as answered (defaults on failure), and with a wallet, a cordex address and a token the allowances are checked under the hook's curve and the previously stored cordex token |
| TokenDashboard.Dashboard.CheckSide | src/hooks/useTokenDashboard.ts:143-194 | a cached 'true' sets `hasAllowance` without a read; otherwise it becomes allowance > 0, and the key is written only when true |
| TokenDashboard.Dashboard.CheckAndUpdateAllowances | src/hooks/useTokenDashboard.ts:136-199 | a no-op without client, wallet or curve; otherwise both sides follow the cache rules under their own keys |
| TokenDashboard.Dashboard.FetchChartData | src/hooks/useTokenDashboard.ts:317-361 | a non-empty timeframe list replaces the available list and a missing current timeframe falls back to the first; a failure empties the chart; loading is false at the end |
| TokenDashboard.Dashboard.OnAmountChange | src/hooks/useTokenDashboard.ts:598-654 | an empty or non-numeric amount gives estimate "0"; a calculation error gives "Error"; otherwise the estimate |
| TokenDashboard.Dashboard.Approve | src/hooks/useTokenDashboard.ts:656-779 | approves maxUint256; confirmation stores the allowance key and sets `hasAllowance`; approving is false at the end |
| TokenDashboard.Dashboard.Execute | src/hooks/useTokenDashboard.ts:787-902 | a confirmed trade resets the amount to "" and the estimate to "0" and sets the success message; processing is false at the end |
| LaunchServiceFlow.RecoveryStep | src/components/LaunchServiceFlow.tsx:178 | the step after a failure: "registering-service" with a curve, else "deploying-curve" with a token, else "approving-tokens" with a provider contract, else "input" |
| LaunchServiceFlow.FormComplete | src/components/LaunchServiceFlow.tsx:71 | all four form fields are non-empty |
| LaunchServiceFlow.FailureMessage | src/components/LaunchServiceFlow.tsx:174 | an Error's message, or "Failed to deploy service" for any other thrown value |
| LaunchServiceFlow.LaunchFailure | src/components/LaunchServiceFlow.tsx:80-171 | the message of the first failing stage; none exactly when every call succeeds |
| LaunchServiceFlow.Deposit | src/components/LaunchServiceFlow.tsx:122-123 | totalSupply × pct div 100 |
| LaunchServiceFlow.DepositAtMostHalf | src/components/LaunchServiceFlow.tsx:122-123 | with pct in the slider's range [1, 50] the deposit is at most half the supply |
| LaunchServiceFlow.CurveDeployCall | src/components/LaunchServiceFlow.tsx:121-136 | the curve deployment is sent iff the flow reaches it, with the deployed token, the approved deposit (pct of the supply, truncated, at most half) and the fixed slope 0.05 and intercept 0.1 in 18-decimal units |
| LaunchServiceFlow.Stages | src/components/LaunchServiceFlow.tsx:80-171 | the failure is LaunchFailure, so none exactly when every call succeeds; the stage reached is fixed by which events were found; on success the record holds the three deployed addresses; the deposit is approved iff the contract is activated and the supply read; the steps set are a prefix of the full trace |
| LaunchServiceFlow.Flow.constructor | src/components/LaunchServiceFlow.tsx:44-51 | pct 20, step "input", no error or addresses |
| LaunchServiceFlow.Flow.SetPercentage | src/components/LaunchServiceFlow.tsx:267-270 | the slider sets the percentage |
| LaunchServiceFlow.Flow.Fail | src/components/LaunchServiceFlow.tsx:172-179 | the error is recorded and the step becomes the recovery step of what was deployed |
| LaunchServiceFlow.Flow.HandleServiceDeployment | src/components/LaunchServiceFlow.tsx:57-180 | no wallet sets the error and keeps the step and the addresses; an incomplete form returns to "input" with the addresses kept; otherwise the error is LaunchFailure's message on failure, each address is the deployed one once its event was found and otherwise kept, and the run completes iff every call succeeds, with the step trace confirming → deploying-service → confirming → approving-tokens → deploying-curve → registering-service → complete, else the recovery step |
| ServiceRequestForm.Form.constructor | src/components/ServiceRequestForm.tsx:22-25 | empty input, no response, both flags false |
| ServiceRequestForm.Form.HandleSubmit | src/components/ServiceRequestForm.tsx:83-120 | ignored on blank input, missing address or escrow, a running allowance check or an action in flight; with a token it calls the API and records the result or the failure; otherwise it only sets the in-progress flag |
| ServiceRequestForm.Form.DriveFlow | src/components/ServiceRequestForm.tsx:123-186 | idle unless the flag is set and nothing is busy; then, in order, an API call with a token, `approveSpending` when approval is needed, else `generateToken`; a missing escrow gives an error response and clears the flag |
| ServiceRequestForm.Form.OnHookError | src/components/ServiceRequestForm.tsx:218-223 | a hook error clears the in-progress flag |
| ServiceRequestForm.Form.OnTokenChange | src/components/ServiceRequestForm.tsx:77-81 | the response is cleared while generating or without a token |
| ServiceRequestForm.Form.IsProcessing | src/components/ServiceRequestForm.tsx:227-233 | `isProcessing`: the allowance check, any hook flag or the API call is running |
| ServiceRequestForm.DisplayedError | src/components/ServiceRequestForm.tsx:270-275 | the lowercased text before "Details:", or else before "Reason:", or else the whole error; never longer than the error |
| ServiceRequestForm.WholeErrorFallbackUnused | src/components/ServiceRequestForm.tsx:270-275 | the text before "Reason:" is never empty when the text before "Details:" is, so the whole-error fallback is only reached by an empty error |
| DemoServiceRequestForm.PickImage | src/components/DemoServiceRequestForm.tsx:80-81 | the picked image is one of the demo images |
| DemoServiceRequestForm.DemoForm.constructor | src/components/DemoServiceRequestForm.tsx:19-21 | empty input, no image, not loading |
| DemoServiceRequestForm.DemoForm.HandleSubmit | src/components/DemoServiceRequestForm.tsx:53-111 | the previous image is always cleared; blank input or missing address or escrow does nothing more; with a token the image is a demo image; otherwise approve or generate |
| DemoServiceRequestForm.DemoForm.OnTokenChange | src/components/DemoServiceRequestForm.tsx:44-48 | the image is cleared while generating or without a token |
| DemoServiceRequestForm.ButtonText | src/components/DemoServiceRequestForm.tsx:114-130 | "send request" with a token, else "approve crdx" when approval is needed, else "generate token" |
| DemoServiceRequestForm.StatusText | src/components/DemoServiceRequestForm.tsx:115-144 | empty iff no flag is set; otherwise the text of the first set flag in the order checking, approving, generating, waiting, confirming, processing |
| DemoServiceRequestForm.IsProcessing | src/components/DemoServiceRequestForm.tsx:116-122 | `isProcessing`: any of the five hook flags or the API call is set |
| ServiceList.NewCap | src/components/ServiceList.tsx:117-149 | market-cap data is kept iff the service has a curve and the fetch returned data |
| ServiceList.FirstIndexOf | src/components/ServiceList.tsx:158-160 | `findIndex` by id: the first entry with that id, or none |
| ServiceList.SetCapAtId | src/components/ServiceList.tsx:158-163 | the first entry with the id gets the new data; an unknown id changes nothing |
| ServiceList.ApplyBatchItems | src/components/ServiceList.tsx:99-149 | the per-service updates of one batch keep the length, the ids and the bonding curves of the service data |
| ServiceList.MergeInto | src/components/ServiceList.tsx:156-165 | the state update after a batch keeps the list's length |
| ServiceList.MergeKeepsOthers | src/components/ServiceList.tsx:156-165 | merging keeps every id in place and leaves entries whose id was not updated untouched |
| ServiceList.MergePlacesUpdates | src/components/ServiceList.tsx:156-165 | with distinct ids, each updated service lands at the first entry with its id |
| ServiceList.BatchesCoverInOrder | src/components/ServiceList.tsx:91-93 | the batches [i, i+3) concatenate to the list in order; there is one per loop pass; all but the last have 3 entries |
| ServiceList.Process | src/components/ServiceList.tsx:92-170 | the batched refresh keeps the list's length |
| ServiceList.BatchStep | src/components/ServiceList.tsx:92-165 | one batch keeps the length of the service data and of the list |
| ServiceList.ProcessBatch | src/components/ServiceList.tsx:92-165 | one loop pass leaves exactly the refresh from the next batch on still to do |
| ServiceList.RunBatches | src/components/ServiceList.tsx:91-169 | the loop's merged list is the batched refresh; it runs one pass per batch and pauses once between consecutive batches |
| ServiceList.ProcessTouchesOnlyListedIds | src/components/ServiceList.tsx:92-170 | the refresh keeps every id in place and leaves entries whose id was not refreshed untouched |
| ServiceList.ServiceList.constructor | src/components/ServiceList.tsx:57-63 | the initial services with their count as offset |
| ServiceList.ServiceList.FetchMarketCaps | src/components/ServiceList.tsx:72-178 | one pass per batch of three; one delay between consecutive batches; the list becomes the batched refresh; the polling time is recorded |
| ServiceList.ServiceList.PollTick | src/components/ServiceList.tsx:196-212 | the refresh runs iff there is a client, a full interval has passed since the last poll and the list is non-empty; it then records the time and stores the batched refresh; otherwise nothing changes |
| ServiceList.PollsAnIntervalApart | src/components/ServiceList.tsx:201-205 | no poll is due within 600000 ms of the last one, and one is due after that whenever the list is non-empty |
| ServiceList.ServiceList.HandleLoadMore | src/components/ServiceList.tsx:214-239 | a no-op while loading or at or past the total; a page is appended and its length added to the offset; a failure sets the error message |
| Config.LabelsCoverOrder | src/config.ts:7-17 | the label map covers exactly the ordered timeframes, with distinct labels |
| PriceChart.SameTimestampUnreachable | src/components/PriceChart.tsx:141-155 | under the incremental guard the new last candle never has the old last timestamp |
| PriceChart.IsIncremental | src/components/PriceChart.tsx:138-144 | the incremental-update guard: both non-empty, a later last timestamp and no fewer candles |
| PriceChart.Chart.constructor | src/components/PriceChart.tsx:31-36 | no chart, empty buffer, not transitioning |
| PriceChart.Chart.Mount | src/components/PriceChart.tsx:39-98 | mounting creates the chart with an empty buffer |
| PriceChart.Chart.ApplyData | src/components/PriceChart.tsx:114-188 | empty data clears the buffer; an incremental update appends exactly the new last candle; any other update sets the buffer to the full data |
| PriceChart.Chart.HandleTimeframeClick | src/components/PriceChart.tsx:196-208 | the current timeframe or a click within 200 ms does nothing; otherwise the time is recorded and the callback runs |
| PriceChart.SecondsVisibleForShortest | src/components/PriceChart.tsx:107 | seconds are visible iff the timeframe is "1m" or "5m" |
| PriceChart.SecondsVisible | src/components/PriceChart.tsx:107 | `secondsVisible`: the timeframe is "1m" or "5m" |
| PriceChart.FormatTimeframe | src/components/PriceChart.tsx:191-193 | the timeframe's label, or the raw string |
| ServiceHealth.HealthUrl | src/components/ServiceHealthIndicator.tsx:46-49 | the endpoint with at most one trailing '/' removed, followed by "/health" |
| ServiceHealth.OneTrailingSlashIgnored | src/components/ServiceHealthIndicator.tsx:46-49 | an endpoint with or without one trailing '/' gives the same URL |
| ServiceHealth.StatusFor | src/components/ServiceHealthIndicator.tsx:60-120 | healthy iff an OK response with a parsable body arrived within 5 s, with its latency and message or "Service is healthy"; a non-OK response gives "Error: HTTP <status>"; a timeout or exception gives no latency |
| ServiceHealth.ErrorText | src/components/ServiceHealthIndicator.tsx:119 | an Error's message, or "Unknown error" |
| ServiceHealth.LatencyOnlyFromAnswers | src/components/ServiceHealthIndicator.tsx:60-120 | a status has a latency iff an answer arrived within the timeout and was not OK or had a parsable body |
| ServiceHealth.Indicator.constructor | src/components/ServiceHealthIndicator.tsx:21-22 | no status, loading |
| ServiceHealth.Indicator.CheckEndpoint | src/components/ServiceHealthIndicator.tsx:24-128 | bypass sets healthy with the fixed message and sends nothing; an empty endpoint does nothing; otherwise the health URL is requested and the status follows the response |
| ServiceHealth.Indicator.CheckHealth | src/components/ServiceHealthIndicator.tsx:36-124 | requests the health URL of the endpoint, ends not loading, with the status of the exchange |
| ServiceHealth.Indicator.IntervalTick | src/components/ServiceHealthIndicator.tsx:24-131 | with a bypass no interval exists and nothing changes; otherwise every tick checks the health URL even for an empty endpoint, which requests "/health" |
| NumericInput.ScanMatchesShape | src/components/ui/NumericInput.tsx:16 | a left-to-right scanner agrees with the `^\d*\.?\d*$` shape |
| NumericInput.MatchesIffNumeric | src/components/ui/NumericInput.tsx:16 | a value matches the pattern iff it is digits and '.' only, with at most one '.' and none without decimals |
| NumericInput.AtMostOneDot | src/components/ui/NumericInput.tsx:16 | a value of that shape has at most one '.' |
| NumericInput.ForwardChange | src/components/ui/NumericInput.tsx:13-21 | a change is forwarded iff the value is empty or matches the mode's pattern; forwarded values have at most one '.', none without decimals |
| NumericInput.KeyPrevented | src/components/ui/NumericInput.tsx:23-60 | a caller's prevention wins; navigation keys and ctrl/meta shortcuts other than '.' pass; other multi-character keys are refused; an accepted single key is a digit or an allowed '.'; '.' is refused when one is present and accepted otherwise; digits are never refused |
| NumericInput.PasteLetsThroughNumbers | src/components/ui/NumericInput.tsx:62-76 | a paste goes through iff the caller did not prevent it and the pasted text is digits and '.' only, with at most one '.' and none without decimals |
| NumericInput.AcceptedKeyKeepsShape | src/components/ui/NumericInput.tsx:23-60 | inserting an accepted digit or '.' anywhere into a matching value gives a matching value |
| PercentageInput.TrimStart | src/components/ui/PercentageInput.tsx:21 | a suffix with no leading whitespace |
| PercentageInput.LeadingDigits | src/components/ui/PercentageInput.tsx:21 | the longest digit prefix |
| PercentageInput.ParseIntToString | src/components/ui/PercentageInput.tsx:21 | `parseInt` of an integer's decimal text is that integer |
| PercentageInput.BoundReadsNumber | src/components/ui/PercentageInput.tsx:22-23 | a bound written as an integer's decimal text is that integer, and an absent one is the safe-integer default |
| PercentageInput.Correction | src/components/ui/PercentageInput.tsx:26-40 | no correction for an empty or NaN value or one in range; a value below min becomes min and one above max becomes max |
| PercentageInput.CorrectionIsStable | src/components/ui/PercentageInput.tsx:29-40 | a corrected value needs no further correction |
| PercentageInput.Field.constructor | src/components/ui/PercentageInput.tsx:16 | the field holds its initial value |
| PercentageInput.Field.HandleChange | src/components/ui/PercentageInput.tsx:16-42 | the caller's onChange runs first with the raw value, and a second time with the corrected value only when one is needed |
| CommaFormatter.CommaAt | src/components/ui/CommaFormatter.tsx:13 | where `/\B(?=(\d{3})+(?!\d))/g` matches: between two word characters, before a maximal digit run whose length is a positive multiple of 3 |
| CommaFormatter.Format | src/components/ui/CommaFormatter.tsx:13 | the text with a ',' inserted before each match position; RemovingCommasRestores and DigitsAreGrouped state its meaning |
| CommaFormatter.FormatValue | src/components/ui/CommaFormatter.tsx:10-13 | a number is formatted as its decimal text, a string as itself |
| CommaFormatter.RemoveCommas | src/components/ui/CommaFormatter.tsx:13 | the result holds no comma |
| CommaFormatter.RemovingCommasRestores | src/components/ui/CommaFormatter.tsx:10-13 | removing the inserted commas gives back the comma-free original |
| CommaFormatter.ShortDigitsUnchanged | src/components/ui/CommaFormatter.tsx:13 | digit strings of length ≤ 3 are unchanged |
| CommaFormatter.DigitsAreGrouped | src/components/ui/CommaFormatter.tsx:13 | for digit-only input the first group has 1–3 digits and every later group 3 |
| CommaFormatter.SeparatorSplitsFormat | src/components/ui/CommaFormatter.tsx:13 | a character outside `\w` splits the text: each side is formatted on its own and the character is kept between them |
| CommaFormatter.FractionalRunsAreGrouped | src/components/ui/CommaFormatter.tsx:13 | in any decimal `whole.fraction` the whole part and the fraction are each grouped like an integer, in threes counted from the right end of each (e.g. "1234.5678" becomes "1,234.5,678") |
| CopyableHash.Truncated | src/components/ui/CopyableHash.tsx:18-23 | a hash of length ≤ 2n is unchanged; a longer one is its first n chars, "..." and its last n chars, of length 2n + 3 |
| CopyableHash.TruncatedIsIdempotent | src/components/ui/CopyableHash.tsx:18-23 | truncating a truncated hash changes nothing |
| CopyableHash.Rendered | src/components/ui/CopyableHash.tsx:16-23 | nothing is rendered iff the hash is empty |
| CopyableHash.Copyable.constructor | src/components/ui/CopyableHash.tsx:14 | not copied |
| CopyableHash.Copyable.HandleCopy | src/components/ui/CopyableHash.tsx:25-29 | the clipboard receives the full, untruncated hash |
| CopyableHash.Copyable.ResetCopied | src/components/ui/CopyableHash.tsx:25-29 | the copied flag clears |
| TypedText.Typing.constructor | src/components/ui/TypedText.tsx:22-27 | nothing displayed, index 0, neither typing nor deleting, the given target |
| TypedText.Typing.StartTyping | src/components/ui/TypedText.tsx:35-45 | typing starts, nothing else changes |
| TypedText.Typing.OnTextChange | src/components/ui/TypedText.tsx:47-58 | a new text with something displayed starts deletion; with nothing displayed the target switches at once |
| TypedText.Typing.TypeStep | src/components/ui/TypedText.tsx:88-99 | while typing and not deleting below the end, the next target character is appended and the index advances; the displayed text is the target's prefix up to the index |
| TypedText.Typing.DeletionStep | src/components/ui/TypedText.tsx:70-85 | exactly the last character is removed; an empty text stops deleting, switches target, resets the index and starts typing |
| ChartPerformance.PathSplits | test_chart_performance.py:18 | the probed URL splits at its one '?' into the API base followed by the address, and the query |
| ChartPerformance.QuerySplits | test_chart_performance.py:18 | the query carries `timeframe=<tf>` and `limit=100` |
| ChartPerformance.ProbeUrl | test_chart_performance.py:18 | the probed URL: API base, address, then the timeframe and limit query |
| ChartPerformance.Latency | test_chart_performance.py:12-33 | a latency iff status 200 and a JSON body that has a length (a string, list or object), (end − start) × 1000; none otherwise, including a null, number or boolean body whose `len()` raises |
| ChartPerformance.Classify | test_chart_performance.py:58-63 | excellent iff < 100, slow iff ≥ 500, otherwise good |
| ChartPerformance.ClassifyIsMonotone | test_chart_performance.py:58-63 | a larger latency never gets a better rating |
| ChartPerformance.RatingsOnlyForAnswers | test_chart_performance.py:53-63 | each rating belongs to a probe with a non-zero latency |
| ChartPerformance.RatingsInProbeOrder | test_chart_performance.py:53-63 | one rating per probe with a non-zero latency, none lost: the rating of probe i, under its own timeframe and for its own latency, sits at the position counting the rated probes before it, so the ratings follow the probe order |
| ChartPerformance.Ratings | test_chart_performance.py:53-63 | at most one rating per probe, each under one of the probed timeframes |
| ChartPerformance.SimulatePerformanceTest | test_chart_performance.py:44-63 | the timeframes are probed in the order 1m, 5m, 15m, 1h, and the ratings are those of the probes |

## Left out

- Remote I/O: RPC reads and writes, receipts, multicalls, `fetch`, the S3 upload and the backend services are inputs of the model, never performed.
- Floating point: the deploy-bonding-curve page's amounts are `real`, not IEEE doubles, so rounding and the float comparisons of balances are not modelled; the market-cap product and `toFixed(2)` are an input.
- `getAddress`'s EIP-55 checksum is an opaque parameter (None means it throws); `toLowerCase` is ASCII only.
- JavaScript's `Number()`, `parseFloat` and NaN are inputs (an `isNumber` flag, an Option), not parsers.
- PercentageInput.ParseInt: integers are unbounded, so the precision `parseInt` loses beyond 2^53 is not modelled.
- CommaFormatter.FormatValue: number inputs are integers; `toString` of fractional or exponent-form numbers is not modelled.
- ServiceList.ServiceList.FetchMarketCaps: the calls inside a batch run concurrently in the source and state may change between batches; the model treats each batch as one step and does not model that `newServiceData` shares its objects with the current state.
- Timers: the 50 ms delay before a full chart update is applied at once; a polling tick is a call of ServiceList.ServiceList.PollTick with the current time and a 30 s health tick a call of ServiceHealth.Indicator.IntervalTick, and the interval timers that issue the ticks (and their clearing when the endpoint changes), the 300 ms/2 s/5 s/3 s timeouts, the 10 s request timeout of the chart probe (a timed-out request is a Raised outcome) and the `throttle` closure are not modelled.
- ServiceHealth.StatusFor: the race between the response and the 5 s timer is decided by the elapsed time alone, with exactly 5000 ms counting as a timeout.
- DemoServiceRequestForm.PickImage: `Math.random` is a parameter in [0, 1).
- PriceChart.FormatTimeframe: a timeframe that names an `Object.prototype` key is treated as unlabelled.
- Logging, rendering and the useMyContracts loading effect (src/hooks/useMyContracts.ts:416-455) are not modelled.
- The redirect effects of the deploy-bonding-curve page (src/app/deploy-bonding-curve/page.tsx:382-390) and of useMyContracts (src/hooks/useMyContracts.ts:589-599) are navigation after a delay and are not modelled.
- The trade-event subscription of useTokenDashboard (src/hooks/useTokenDashboard.ts:519-580): decoding the log is viem's; its handler is a call of TokenDashboard.Dashboard.RefreshBondingCurveInfo, of RefreshTokenBalance when TradeIsMine holds, and of FetchChartData 5 s later, and that sequencing is not modelled as a method.
- TokenDashboard.Dashboard.OnAmountChange: the amount and its estimate are stored in one step; in the source the estimate is stored after an await, so the estimate for an older amount can land after the one for a newer amount, and that race is not modelled.
- DeployBondingCurvePage.Page.DeployBondingCurve: the "Insufficient allowance." message omits the required and approved numbers the source interpolates.
- The random deployment nonce and the `approveTokens` call in useBondingCurveSetup whose arguments do not match its signature: only the computed amount is modelled.
- BondingCurveSetup.PercentValue: `Number()` of text with white space, an exponent, a hexadecimal prefix or "Infinity" is treated as text `BigInt` rejects, so those rare inputs throw in the model where the source may accept them; the encoding error viem raises for a negative approve or deploy amount is not modelled, and the same throw during rendering (src/hooks/useBondingCurveSetup.ts:312-313) is not modelled as a crash. `Number()` also rounds an integer above 2^53 to the nearest double, so "99999999999999999" becomes 100000000000000000 in the source, while the model reads every integer exactly.
- `needsApproval`, `approveSpending` and `isCheckingAllowance` are read by the request forms, but the token hook does not return them, so they are free inputs.
